/** The slide planner of backend/video_generation_service.py: greedy word
    wrapping of a transcript into lines no wider than `maxWidth` pixels, then
    grouping of the lines into slides of at most `maxLines` lines. The font
    metric (`font.getbbox(s)[2]`) is the parameter `width`. */
module SlidePlanner {
  import opened Text

  /** The lines of a slide, as `slide_text.split('\n')` recovers them. */
  function SlideLines(slide: string): seq<string> {
    SplitOn(slide, '\n')
  }

  /** The number of lines every slide but the last one gets: `maxLines`,
      or 1 when `maxLines < 1` (the flush test `>= max_lines` then fires
      after every line). */
  function Cap(maxLines: int): (c: nat)
    ensures c >= 1
    ensures maxLines >= 1 ==> c == maxLines
  {
    if maxLines >= 1 then maxLines else 1
  }

  // ---------------------------------------------------------------------
  // What the planner promises about its output
  // ---------------------------------------------------------------------

  /** Splitting every slide on whitespace and concatenating gives `text.split()`. */
  ghost predicate Covers(slides: seq<string>, text: string) {
    ConcatWords(slides) == Words(text)
  }

  /** Every slide has between 1 and `Cap(maxLines)` lines; all but the last
      have exactly `Cap(maxLines)`. */
  ghost predicate LineCapped(slides: seq<string>, maxLines: int) {
    forall j | 0 <= j < |slides| ::
      1 <= |SlideLines(slides[j])| <= Cap(maxLines)
      && (j < |slides| - 1 ==> |SlideLines(slides[j])| == Cap(maxLines))
  }

  /** Every word after the first of a line passed the width test when it was
      added: `width(current_line + word + ' ') <= maxWidth`, where
      `current_line` holds the earlier words, each followed by a space. */
  ghost predicate Fitted(ws: seq<string>, width: string -> int, maxWidth: int) {
    forall m | 1 <= m < |ws| :: width(LineText(ws[..m]) + ws[m] + " ") <= maxWidth
  }

  /** Every line was grown word by word within the width. */
  ghost predicate WidthBounded(slides: seq<string>, width: string -> int, maxWidth: int) {
    forall j, k | 0 <= j < |slides| && 0 <= k < |SlideLines(slides[j])| ::
      Fitted(Words(SlideLines(slides[j])[k]), width, maxWidth)
  }

  /** The lines of all slides, slide after slide. */
  function AllLines(slides: seq<string>): seq<string> {
    if slides == [] then [] else SlideLines(slides[0]) + AllLines(slides[1..])
  }

  /** The text `current_line` held before it was stripped and closed. */
  function Padded(line: string): string {
    if line == "" then "" else line + " "
  }

  /** Greedy filling: every line but the last was closed because the next
      word did not fit on it (`width(current_line + word + ' ') > maxWidth`),
      across slide boundaries too; and the first line is empty whenever the
      first word alone overflows. */
  ghost predicate GreedyFill(slides: seq<string>, text: string, width: string -> int, maxWidth: int) {
    var lines := AllLines(slides);
    && (forall i | 0 <= i < |lines| - 1 && Words(lines[i + 1]) != [] ::
          width(Padded(lines[i]) + Words(lines[i + 1])[0] + " ") > maxWidth)
    && (FirstWordOverflows(text, width, maxWidth) ==> lines != [] && lines[0] == "")
  }
  /** The words of each line, in order. */
  function LineWords(lines: seq<string>): (r: seq<seq<string>>)
    ensures |r| == |lines| && forall i :: 0 <= i < |lines| ==> r[i] == Words(lines[i])
  {
    if lines == [] then [] else [Words(lines[0])] + LineWords(lines[1..])
  }

  /** `ls` is a greedy wrapping of the words `ws`: the lines hold the words
      in order; only the first line may be empty, and it is exactly when
      the first word alone overflows; every line was grown within the
      width; every line but the last was closed because the next word
      overflowed it. `WrapUnique` shows there is only one. */
  ghost predicate Wrapping(ls: seq<seq<string>>, ws: seq<string>, width: string -> int, maxWidth: int) {
    && Concat(ls) == ws
    && (forall i | 0 < i < |ls| :: ls[i] != [])
    && ((ls != [] && ls[0] == []) <==> (ws != [] && width(ws[0] + " ") > maxWidth))
    && (forall i | 0 <= i < |ls| :: Fitted(ls[i], width, maxWidth))
    && GreedyLines(ls, width, maxWidth)
  }


  /** The first word alone overflows the width. */
  ghost predicate FirstWordOverflows(text: string, width: string -> int, maxWidth: int) {
    |Words(text)| > 0 && width(Words(text)[0] + " ") > maxWidth
  }

  /** An empty line can only be the first line of the first slide, and only
      when the first word alone overflows. */
  ghost predicate EmptyLineOnlyFirst(slides: seq<string>, text: string, width: string -> int, maxWidth: int) {
    forall j, k | 0 <= j < |slides| && 0 <= k < |SlideLines(slides[j])| ::
      SlideLines(slides[j])[k] == "" ==> j == 0 && k == 0 && FirstWordOverflows(text, width, maxWidth)
  }

  /** Every non-empty line is made of one or more words separated by single
      spaces, with no other whitespace. */
  ghost predicate LinesAreWordsJoined(slides: seq<string>) {
    forall j, k | 0 <= j < |slides| && 0 <= k < |SlideLines(slides[j])| ::
      SlideLines(slides[j])[k] == Join(Words(SlideLines(slides[j])[k]), ' ')
  }

  // ---------------------------------------------------------------------
  // Ghost structure of a plan: slides of lines of words
  // ---------------------------------------------------------------------

  type Plan = seq<seq<seq<string>>>

  function RenderLines(lines: seq<seq<string>>): (r: seq<string>)
    ensures |r| == |lines|
    ensures forall k :: 0 <= k < |lines| ==> r[k] == Join(lines[k], ' ')
  {
    if lines == [] then [] else [Join(lines[0], ' ')] + RenderLines(lines[1..])
  }

  function RenderSlides(plan: Plan): (r: seq<string>)
    ensures |r| == |plan|
    ensures forall j :: 0 <= j < |plan| ==> r[j] == Join(RenderLines(plan[j]), '\n')
  {
    if plan == [] then [] else [Join(RenderLines(plan[0]), '\n')] + RenderSlides(plan[1..])
  }

  function Flat(plan: Plan): seq<string> {
    if plan == [] then [] else Concat(plan[0]) + Flat(plan[1..])
  }

  ghost predicate LinesOfWords(lines: seq<seq<string>>) {
    forall k :: 0 <= k < |lines| ==> AllWords(lines[k])
  }

  ghost predicate PlanOfWords(plan: Plan) {
    forall j :: 0 <= j < |plan| ==> LinesOfWords(plan[j])
  }

  ghost predicate PlanWidthOk(plan: Plan, width: string -> int, maxWidth: int) {
    forall j, k | 0 <= j < |plan| && 0 <= k < |plan[j]| :: Fitted(plan[j][k], width, maxWidth)
  }

  /** Each line but the last was closed because the next word overflowed it. */
  ghost predicate GreedyLines(lines: seq<seq<string>>, width: string -> int, maxWidth: int) {
    forall i | 0 <= i < |lines| - 1 && lines[i + 1] != [] ::
      width(LineText(lines[i]) + lines[i + 1][0] + " ") > maxWidth
  }

  ghost predicate PlanGreedy(plan: Plan, width: string -> int, maxWidth: int, overflow: bool) {
    && GreedyLines(Concat(plan), width, maxWidth)
    && (overflow ==> Concat(plan) != [] && Concat(plan)[0] == [])
  }

  ghost predicate PlanEmptyOk(plan: Plan, overflow: bool) {
    forall j, k | 0 <= j < |plan| && 0 <= k < |plan[j]| ::
      plan[j][k] == [] ==> j == 0 && k == 0 && overflow
  }

  ghost predicate PlanCapped(plan: Plan, cap: nat) {
    forall j | 0 <= j < |plan| :: 1 <= |plan[j]| <= cap && (j < |plan| - 1 ==> |plan[j]| == cap)
  }

  lemma {:induction false} FlatSnoc(plan: Plan, s: seq<seq<string>>)
    ensures Flat(plan + [s]) == Flat(plan) + Concat(s)
  {
    if plan == [] {
      assert plan + [s] == [s];
    } else {
      assert (plan + [s])[1..] == plan[1..] + [s];
      FlatSnoc(plan[1..], s);
    }
  }

  lemma RenderLinesSnoc(lines: seq<seq<string>>, l: seq<string>)
    ensures RenderLines(lines + [l]) == RenderLines(lines) + [Join(l, ' ')]
  {
  }

  lemma RenderSlidesSnoc(plan: Plan, s: seq<seq<string>>)
    ensures RenderSlides(plan + [s]) == RenderSlides(plan) + [Join(RenderLines(s), '\n')]
  {
  }

  /** The lines of a rendered slide are the rendered lines. */
  lemma SlideLinesOfRendered(lines: seq<seq<string>>)
    requires lines != [] && LinesOfWords(lines)
    ensures SlideLines(Join(RenderLines(lines), '\n')) == RenderLines(lines)
  {
    var r := RenderLines(lines);
    forall k | 0 <= k < |r| ensures '\n' !in r[k] {
      JoinWordsAvoids(lines[k], '\n');
    }
    SplitOnJoin(r, '\n');
  }

  lemma {:induction false} WordsOfRenderedLines(lines: seq<seq<string>>)
    requires LinesOfWords(lines)
    ensures ConcatWords(RenderLines(lines)) == Concat(lines)
  {
    if lines != [] {
      WordsOfLine(lines[0]);
      WordsOfRenderedLines(lines[1..]);
    }
  }

  lemma {:induction false} WordsOfRenderedPlan(plan: Plan)
    requires PlanOfWords(plan)
    ensures ConcatWords(RenderSlides(plan)) == Flat(plan)
  {
    if plan != [] {
      WordsOfJoin(RenderLines(plan[0]), '\n');
      WordsOfRenderedLines(plan[0]);
      WordsOfRenderedPlan(plan[1..]);
    }
  }

  lemma RenderLinesAppend(a: seq<seq<string>>, b: seq<seq<string>>)
    ensures RenderLines(a + b) == RenderLines(a) + RenderLines(b)
  {
  }

  /** The lines of the rendered slides are the plan's lines, rendered. */
  lemma {:induction false} AllLinesRendered(plan: Plan)
    requires PlanOfWords(plan) && forall j :: 0 <= j < |plan| ==> plan[j] != []
    ensures AllLines(RenderSlides(plan)) == RenderLines(Concat(plan))
    ensures LinesOfWords(Concat(plan))
  {
    if plan != [] {
      SlideLinesOfRendered(plan[0]);
      AllLinesRendered(plan[1..]);
      RenderLinesAppend(plan[0], Concat(plan[1..]));
      var c := Concat(plan);
      forall k | 0 <= k < |c| ensures AllWords(c[k]) {
        if k >= |plan[0]| {
          assert c[k] == Concat(plan[1..])[k - |plan[0]|];
        }
      }
    }
  }

  /** A rendered line, padded, is the text the open line had. */
  lemma PaddedLine(ws: seq<string>)
    requires AllWords(ws)
    ensures Padded(Join(ws, ' ')) == LineText(ws)
  {
    if ws != [] {
      JoinWordsEnds(ws);
    }
  }

  /** Greedy closing of the plan's lines carries over to the rendered slides. */
  lemma GreedyRendered(plan: Plan, text: string, width: string -> int, maxWidth: int, cap: nat)
    requires PlanOfWords(plan) && PlanCapped(plan, cap)
    requires PlanGreedy(plan, width, maxWidth, FirstWordOverflows(text, width, maxWidth))
    ensures GreedyFill(RenderSlides(plan), text, width, maxWidth)
  {
    var c := Concat(plan);
    AllLinesRendered(plan);
    var lines := AllLines(RenderSlides(plan));
    forall i | 0 <= i < |lines| ensures Words(lines[i]) == c[i] && Padded(lines[i]) == LineText(c[i]) {
      WordsOfLine(c[i]);
      PaddedLine(c[i]);
    }
  }

  /** Position `i` of a concatenation is position `k` of part `j`. */
  lemma {:induction false} ConcatAt<T>(ss: seq<seq<T>>, i: nat) returns (j: nat, k: nat)
    requires i < |Concat(ss)|
    ensures j < |ss| && k < |ss[j]| && Concat(ss)[i] == ss[j][k]
    ensures j == 0 <==> i < |ss[0]|
    ensures j == 0 ==> k == i
  {
    assert ss != [];
    if i < |ss[0]| {
      j, k := 0, i;
    } else {
      var j', k' := ConcatAt(ss[1..], i - |ss[0]|);
      j, k := j' + 1, k';
    }
  }

  lemma {:induction false} FlatConcat(plan: Plan)
    ensures Flat(plan) == Concat(Concat(plan))
  {
    if plan != [] {
      FlatConcat(plan[1..]);
      ConcatAppend(plan[0], Concat(plan[1..]));
    }
  }

  /** The words of the rendered lines are the plan's lines. */
  lemma RenderedLineWords(lines: seq<seq<string>>)
    requires LinesOfWords(lines)
    ensures LineWords(RenderLines(lines)) == lines
  {
    forall k | 0 <= k < |lines| ensures Words(Join(lines[k], ' ')) == lines[k] {
      WordsOfLine(lines[k]);
    }
  }

  /** The rendered slides' lines are a greedy wrapping of the text's words. */
  lemma WrapRendered(plan: Plan, text: string, width: string -> int, maxWidth: int, cap: nat)
    requires PlanOfWords(plan) && PlanCapped(plan, cap) && Flat(plan) == Words(text)
    requires PlanWidthOk(plan, width, maxWidth)
    requires PlanEmptyOk(plan, FirstWordOverflows(text, width, maxWidth))
    requires PlanGreedy(plan, width, maxWidth, FirstWordOverflows(text, width, maxWidth))
    ensures Wrapping(LineWords(AllLines(RenderSlides(plan))), Words(text), width, maxWidth)
  {
    var c := Concat(plan);
    AllLinesRendered(plan);
    RenderedLineWords(c);
    FlatConcat(plan);
    forall i | 0 <= i < |c| ensures Fitted(c[i], width, maxWidth) && (c[i] == [] ==> i == 0 && FirstWordOverflows(text, width, maxWidth)) {
      var j, k := ConcatAt(plan, i);
    }
  }

  /** The properties of the ghost plan carry over to the rendered slides. */
  lemma RenderedPlanProperties(plan: Plan, text: string, width: string -> int, maxWidth: int, maxLines: int)
    requires PlanOfWords(plan) && Flat(plan) == Words(text)
    requires PlanCapped(plan, Cap(maxLines))
    requires PlanWidthOk(plan, width, maxWidth)
    requires PlanEmptyOk(plan, FirstWordOverflows(text, width, maxWidth))
    ensures var slides := RenderSlides(plan);
      Covers(slides, text) && LineCapped(slides, maxLines)
      && WidthBounded(slides, width, maxWidth)
      && EmptyLineOnlyFirst(slides, text, width, maxWidth)
      && LinesAreWordsJoined(slides)
  {
    WordsOfRenderedPlan(plan);
    CappedRendered(plan, maxLines);
    WidthRendered(plan, width, maxWidth);
    EmptyRendered(plan, text, width, maxWidth);
    JoinedRendered(plan);
  }

  lemma CappedRendered(plan: Plan, maxLines: int)
    requires PlanOfWords(plan) && PlanCapped(plan, Cap(maxLines))
    ensures LineCapped(RenderSlides(plan), maxLines)
  {
    RenderedLines(plan);
  }

  lemma WidthRendered(plan: Plan, width: string -> int, maxWidth: int)
    requires PlanOfWords(plan) && (forall j :: 0 <= j < |plan| ==> plan[j] != [])
    requires PlanWidthOk(plan, width, maxWidth)
    ensures WidthBounded(RenderSlides(plan), width, maxWidth)
  {
    RenderedLines(plan);
  }

  lemma EmptyRendered(plan: Plan, text: string, width: string -> int, maxWidth: int)
    requires PlanOfWords(plan) && (forall j :: 0 <= j < |plan| ==> plan[j] != [])
    requires PlanEmptyOk(plan, FirstWordOverflows(text, width, maxWidth))
    ensures EmptyLineOnlyFirst(RenderSlides(plan), text, width, maxWidth)
  {
    RenderedLines(plan);
  }

  lemma JoinedRendered(plan: Plan)
    requires PlanOfWords(plan) && (forall j :: 0 <= j < |plan| ==> plan[j] != [])
    ensures LinesAreWordsJoined(RenderSlides(plan))
  {
    RenderedLines(plan);
  }

  /** The lines of every rendered slide are its planned lines, joined; a
      rendered line is empty exactly when its planned line is. */
  lemma RenderedLines(plan: Plan)
    requires PlanOfWords(plan) && forall j :: 0 <= j < |plan| ==> plan[j] != []
    ensures forall j | 0 <= j < |plan| :: SlideLines(RenderSlides(plan)[j]) == RenderLines(plan[j])
    ensures forall j, k | 0 <= j < |plan| && 0 <= k < |plan[j]| ::
      Words(RenderLines(plan[j])[k]) == plan[j][k] && (RenderLines(plan[j])[k] == "" <==> plan[j][k] == [])
  {
    forall j | 0 <= j < |plan|
      ensures SlideLines(RenderSlides(plan)[j]) == RenderLines(plan[j])
    {
      SlideLinesOfRendered(plan[j]);
    }
    forall j, k | 0 <= j < |plan| && 0 <= k < |plan[j]|
      ensures Words(RenderLines(plan[j])[k]) == plan[j][k] && (RenderLines(plan[j])[k] == "" <==> plan[j][k] == [])
    {
      WordsOfLine(plan[j][k]);
      if plan[j][k] != [] {
        JoinWordsEnds(plan[j][k]);
      }
    }
  }

  // ---------------------------------------------------------------------
  // The planner's loop state, as four groups of invariants
  // ---------------------------------------------------------------------

  /** The text of the open line: each word followed by a space, or "". */
  function LineText(line: seq<string>): string {
    if line == [] then "" else Join(line, ' ') + " "
  }

  /** Words consumed so far are exactly the closed slides, the open slide's
      lines and the open line, in order; the open line is empty only before
      the first word. */
  ghost predicate Consumed(all: seq<string>, words: seq<string>, plan: Plan, open: seq<seq<string>>, line: seq<string>) {
    && AllWords(all) && AllWords(words) && AllWords(line)
    && PlanOfWords(plan) && LinesOfWords(open)
    && Flat(plan) + Concat(open) + line + words == all
    && (line == [] <==> words == all)
    && (line == [] ==> plan == [] && open == [])
  }

  /** The Python variables are the rendering of the ghost structure. */
  ghost predicate Rendered(slides: seq<string>, slideLines: seq<string>, currentLine: string,
                           plan: Plan, open: seq<seq<string>>, line: seq<string>) {
    && currentLine == LineText(line)
    && slideLines == RenderLines(open)
    && slides == RenderSlides(plan)
  }

  /** Closed slides hold exactly `cap` lines; the open one fewer. */
  ghost predicate Grouped(plan: Plan, open: seq<seq<string>>, cap: nat) {
    && (forall j :: 0 <= j < |plan| ==> |plan[j]| == cap)
    && |open| < cap
  }

  /** Width and empty-line facts about every line built so far. */
  ghost predicate Bounded(plan: Plan, open: seq<seq<string>>, line: seq<string>,
                          width: string -> int, maxWidth: int, overflow: bool) {
    && PlanWidthOk(plan, width, maxWidth)
    && (forall k :: 0 <= k < |open| ==> Fitted(open[k], width, maxWidth))
    && Fitted(line, width, maxWidth)
    && PlanEmptyOk(plan, overflow)
    && (forall k :: 0 <= k < |open| && open[k] == [] ==> plan == [] && k == 0 && overflow)
  }

  /** The word fits: it joins the open line. */
  lemma FitStep(all: seq<string>, words: seq<string>, plan: Plan, open: seq<seq<string>>, line: seq<string>,
                width: string -> int, maxWidth: int, overflow: bool)
    requires Consumed(all, words, plan, open, line) && words != []
    requires Bounded(plan, open, line, width, maxWidth, overflow)
    requires width(LineText(line) + words[0] + " ") <= maxWidth
    ensures Consumed(all, words[1..], plan, open, line + [words[0]])
    ensures Bounded(plan, open, line + [words[0]], width, maxWidth, overflow)
    ensures LineText(line + [words[0]]) == LineText(line) + words[0] + " "
  {
    FitConsumed(all, words, plan, open, line);
    FitText(line, words[0]);
    FitFitted(line, words[0], width, maxWidth);
  }

  /** A word that passed the width test extends a line grown within the width. */
  lemma FitFitted(line: seq<string>, w: string, width: string -> int, maxWidth: int)
    requires Fitted(line, width, maxWidth) && width(LineText(line) + w + " ") <= maxWidth
    ensures Fitted(line + [w], width, maxWidth)
  {
    var line' := line + [w];
    forall m | 1 <= m < |line'| ensures width(LineText(line'[..m]) + line'[m] + " ") <= maxWidth {
      if m < |line| {
        assert line'[..m] == line[..m] && line'[m] == line[m];
      } else {
        assert line'[..m] == line;
      }
    }
  }

  lemma FitConsumed(all: seq<string>, words: seq<string>, plan: Plan, open: seq<seq<string>>, line: seq<string>)
    requires Consumed(all, words, plan, open, line) && words != []
    ensures Consumed(all, words[1..], plan, open, line + [words[0]])
  {
    assert line + words == line + [words[0]] + words[1..];
  }

  /** Appending a word to the open line appends it and a space to its text. */
  lemma FitText(line: seq<string>, w: string)
    ensures LineText(line + [w]) == LineText(line) + w + " "
  {
    if line != [] {
      JoinSnoc(line, w, ' ');
    } else {
      assert line + [w] == [w];
    }
  }

  /** Lines closed so far, the open line last: each was closed because the
      next word overflowed it, and the first is empty exactly before the
      first word or when the first word overflowed. */
  ghost predicate Greedy(all: seq<string>, words: seq<string>, plan: Plan, open: seq<seq<string>>, line: seq<string>,
                         width: string -> int, maxWidth: int, overflow: bool) {
    var lines := Concat(plan) + open + [line];
    && GreedyLines(lines, width, maxWidth)
    && (lines[0] == [] <==> words == all || overflow)
  }

  /** A fitting word keeps the lines greedy. */
  lemma GreedyFit(all: seq<string>, words: seq<string>, plan: Plan, open: seq<seq<string>>, line: seq<string>,
                  width: string -> int, maxWidth: int, overflow: bool)
    requires Consumed(all, words, plan, open, line) && words != []
    requires Greedy(all, words, plan, open, line, width, maxWidth, overflow)
    requires overflow == (|all| > 0 && width(all[0] + " ") > maxWidth)
    requires width(LineText(line) + words[0] + " ") <= maxWidth
    ensures Greedy(all, words[1..], plan, open, line + [words[0]], width, maxWidth, overflow)
  {
    var w := words[0];
    var before := Concat(plan) + open;
    var lines := before + [line];
    var lines' := before + [line + [w]];
    assert |words[1..]| < |words| <= |all|;
    if line == [] {
      assert before == [] && all[0] == w && LineText(line) + w == w;
    } else {
      forall i | 0 <= i < |lines'| - 1 && lines'[i + 1] != []
        ensures width(LineText(lines'[i]) + lines'[i + 1][0] + " ") > maxWidth
      {
        assert lines'[i] == lines[i] && lines'[i + 1][0] == lines[i + 1][0];
      }
      assert lines'[0] == [] <==> lines[0] == [];
    }
  }

  /** Closing a line because the word overflowed keeps the lines greedy. */
  lemma GreedyClose(all: seq<string>, words: seq<string>, plan: Plan, open: seq<seq<string>>, line: seq<string>,
                    width: string -> int, maxWidth: int, overflow: bool)
    requires Consumed(all, words, plan, open, line) && words != []
    requires Greedy(all, words, plan, open, line, width, maxWidth, overflow)
    requires overflow == (|all| > 0 && width(all[0] + " ") > maxWidth)
    requires width(LineText(line) + words[0] + " ") > maxWidth
    ensures Greedy(all, words[1..], plan, open + [line], [words[0]], width, maxWidth, overflow)
  {
    var w := words[0];
    var lines := Concat(plan) + open + [line];
    var lines' := Concat(plan) + (open + [line]) + [[w]];
    assert lines' == lines + [[w]];
    assert |words[1..]| < |words| <= |all|;
    if words == all {
      assert all[0] == w && LineText(line) + w == w;
    }
    assert lines'[0] == lines[0];
  }

  /** Flushing the open slide does not change the sequence of lines. */
  lemma GreedyFlush(all: seq<string>, words: seq<string>, plan: Plan, open: seq<seq<string>>, line: seq<string>,
                    width: string -> int, maxWidth: int, overflow: bool)
    requires Greedy(all, words, plan, open, line, width, maxWidth, overflow)
    ensures Greedy(all, words, plan + [open], [], line, width, maxWidth, overflow)
  {
    ConcatAppend(plan, [open]);
    assert Concat([open]) == open + Concat([]);
    assert Concat(plan + [open]) + [] + [line] == Concat(plan) + open + [line];
  }

  /** After the loop the closed lines of the final plan are greedy. */
  lemma FinalGreedy(all: seq<string>, plan: Plan, open: seq<seq<string>>, line: seq<string>,
                    width: string -> int, maxWidth: int, overflow: bool)
    requires Consumed(all, [], plan, open, line)
    requires Greedy(all, [], plan, open, line, width, maxWidth, overflow)
    requires overflow ==> all != []
    ensures var open' := if line != [] then open + [line] else open;
      var plan' := if open' != [] then plan + [open'] else plan;
      PlanGreedy(plan', width, maxWidth, overflow)
  {
    if line != [] {
      var open' := open + [line];
      ConcatAppend(plan, [open']);
      assert Concat([open']) == open' + Concat([]);
      assert Concat(plan + [open']) == Concat(plan) + open + [line];
    }
  }

  /** The word overflows: the open line is closed and the word starts a new one. */
  lemma OverflowConsumed(all: seq<string>, words: seq<string>, plan: Plan, open: seq<seq<string>>, line: seq<string>)
    requires Consumed(all, words, plan, open, line) && words != []
    ensures Consumed(all, words[1..], plan, open + [line], [words[0]])
  {
    var w := words[0];
    SnocLinesOfWords(open, line);
    SnocFlat(Flat(plan) + Concat(open) + line, plan, open, line);
    assert line + words == line + [w] + words[1..];
    assert |words[1..]| < |words| <= |all|;
  }

  /** Closing the open line keeps the width and empty-line facts. */
  lemma OverflowBounded(all: seq<string>, words: seq<string>, plan: Plan, open: seq<seq<string>>, line: seq<string>,
                        width: string -> int, maxWidth: int, overflow: bool)
    requires Consumed(all, words, plan, open, line) && words != []
    requires Bounded(plan, open, line, width, maxWidth, overflow)
    requires overflow == (|all| > 0 && width(all[0] + " ") > maxWidth)
    requires width(LineText(line) + words[0] + " ") > maxWidth
    ensures Bounded(plan, open + [line], [words[0]], width, maxWidth, overflow)
  {
    var open' := open + [line];
    forall k | 0 <= k < |open'|
      ensures Fitted(open'[k], width, maxWidth)
    {
      if k < |open| {
        assert open'[k] == open[k];
      }
    }
    forall k | 0 <= k < |open'| && open'[k] == []
      ensures plan == [] && k == 0 && overflow
    {
      if k < |open| {
        assert open'[k] == open[k];
      } else {
        assert words == all && "" + words[0] == words[0];
      }
    }
  }

  /** The text of a closed line, once stripped, is its words joined by spaces. */
  lemma ClosedLineText(line: seq<string>)
    requires AllWords(line)
    ensures Strip(LineText(line)) == Join(line, ' ')
  {
    if line == [] {
      assert Strip("") == "";
    } else {
      StripLine(line);
    }
  }

  /** A full open slide is closed. */
  lemma FlushStep(slides: seq<string>, slideLines: seq<string>, plan: Plan, open: seq<seq<string>>,
                  line: seq<string>, width: string -> int, maxWidth: int, overflow: bool)
    requires PlanOfWords(plan) && LinesOfWords(open) && open != []
    requires slideLines == RenderLines(open) && slides == RenderSlides(plan)
    requires Bounded(plan, open, line, width, maxWidth, overflow)
    ensures PlanOfWords(plan + [open])
    ensures Flat(plan + [open]) == Flat(plan) + Concat(open)
    ensures slides + [Join(slideLines, '\n')] == RenderSlides(plan + [open])
    ensures Bounded(plan + [open], [], line, width, maxWidth, overflow)
  {
    RenderSlidesSnoc(plan, open);
    FlatSnoc(plan, open);
  }

  /** The whole loop invariant of the planner. */
  ghost predicate State(all: seq<string>, words: seq<string>, slides: seq<string>, slideLines: seq<string>,
                        currentLine: string, plan: Plan, open: seq<seq<string>>, line: seq<string>,
                        cap: nat, width: string -> int, maxWidth: int, overflow: bool) {
    && Consumed(all, words, plan, open, line)
    && Rendered(slides, slideLines, currentLine, plan, open, line)
    && Grouped(plan, open, cap)
    && Bounded(plan, open, line, width, maxWidth, overflow)
    && Greedy(all, words, plan, open, line, width, maxWidth, overflow)
  }

  /** One iteration in which the word fits on the current line. */
  lemma FitState(all: seq<string>, words: seq<string>, slides: seq<string>, slideLines: seq<string>,
                 currentLine: string, plan: Plan, open: seq<seq<string>>, line: seq<string>,
                 cap: nat, width: string -> int, maxWidth: int, overflow: bool)
    requires State(all, words, slides, slideLines, currentLine, plan, open, line, cap, width, maxWidth, overflow)
    requires words != [] && width(currentLine + words[0] + " ") <= maxWidth
    requires overflow == (|all| > 0 && width(all[0] + " ") > maxWidth)
    ensures State(all, words[1..], slides, slideLines, currentLine + words[0] + " ", plan, open, line + [words[0]],
                  cap, width, maxWidth, overflow)
  {
    FitStep(all, words, plan, open, line, width, maxWidth, overflow);
    GreedyFit(all, words, plan, open, line, width, maxWidth, overflow);
  }

  /** The open line is closed: the structure before a possible slide flush. */
  lemma CloseLine(all: seq<string>, words: seq<string>, slides: seq<string>, slideLines: seq<string>,
                  currentLine: string, plan: Plan, open: seq<seq<string>>, line: seq<string>,
                  maxLines: int, width: string -> int, maxWidth: int, overflow: bool)
    requires State(all, words, slides, slideLines, currentLine, plan, open, line, Cap(maxLines), width, maxWidth, overflow)
    requires words != [] && width(currentLine + words[0] + " ") > maxWidth
    requires overflow == (|all| > 0 && width(all[0] + " ") > maxWidth)
    ensures var lines := slideLines + [Strip(currentLine)];
      && Consumed(all, words[1..], plan, open + [line], [words[0]])
      && Rendered(slides, lines, words[0] + " ", plan, open + [line], [words[0]])
      && Bounded(plan, open + [line], [words[0]], width, maxWidth, overflow)
      && Greedy(all, words[1..], plan, open + [line], [words[0]], width, maxWidth, overflow)
      && (forall j :: 0 <= j < |plan| ==> |plan[j]| == Cap(maxLines))
      && |open + [line]| <= Cap(maxLines)
      && (|lines| >= maxLines <==> |open + [line]| == Cap(maxLines))
  {
    var w := words[0];
    OverflowConsumed(all, words, plan, open, line);
    OverflowBounded(all, words, plan, open, line, width, maxWidth, overflow);
    GreedyClose(all, words, plan, open, line, width, maxWidth, overflow);
    ClosedLineText(line);
    RenderLinesSnoc(open, line);
    assert LineText([w]) == w + " " by { assert Join([w], ' ') == w; }
  }

  /** One iteration in which the word overflows the current line: the line
      is closed, the word starts the next one, and a slide that now holds
      `maxLines` lines is closed. */
  lemma OverflowState(all: seq<string>, words: seq<string>, slides: seq<string>, slideLines: seq<string>,
                      currentLine: string, plan: Plan, open: seq<seq<string>>, line: seq<string>,
                      maxLines: int, width: string -> int, maxWidth: int, overflow: bool)
    requires State(all, words, slides, slideLines, currentLine, plan, open, line, Cap(maxLines), width, maxWidth, overflow)
    requires words != [] && width(currentLine + words[0] + " ") > maxWidth
    requires overflow == (|all| > 0 && width(all[0] + " ") > maxWidth)
    ensures var lines := slideLines + [Strip(currentLine)];
      var w := words[0];
      && (|lines| < maxLines ==>
            State(all, words[1..], slides, lines, w + " ", plan, open + [line], [w],
                  Cap(maxLines), width, maxWidth, overflow))
      && (|lines| >= maxLines ==>
            State(all, words[1..], slides + [Join(lines, '\n')], [], w + " ", plan + [open + [line]], [], [w],
                  Cap(maxLines), width, maxWidth, overflow))
  {
    CloseLine(all, words, slides, slideLines, currentLine, plan, open, line, maxLines, width, maxWidth, overflow);
    var lines := slideLines + [Strip(currentLine)];
    if |lines| >= maxLines {
      CloseSlide(all, words[1..], slides, lines, words[0] + " ", plan, open + [line], [words[0]],
                 Cap(maxLines), width, maxWidth, overflow);
    }
  }

  /** A slide holding `cap` lines is closed. */
  lemma CloseSlide(all: seq<string>, words: seq<string>, slides: seq<string>, slideLines: seq<string>,
                   currentLine: string, plan: Plan, open: seq<seq<string>>, line: seq<string>,
                   cap: nat, width: string -> int, maxWidth: int, overflow: bool)
    requires Consumed(all, words, plan, open, line) && line != []
    requires Rendered(slides, slideLines, currentLine, plan, open, line)
    requires Bounded(plan, open, line, width, maxWidth, overflow)
    requires Greedy(all, words, plan, open, line, width, maxWidth, overflow)
    requires (forall j :: 0 <= j < |plan| ==> |plan[j]| == cap) && |open| == cap && cap >= 1
    ensures State(all, words, slides + [Join(slideLines, '\n')], [], currentLine, plan + [open], [], line,
                  cap, width, maxWidth, overflow)
  {
    FlushStep(slides, slideLines, plan, open, line, width, maxWidth, overflow);
    GreedyFlush(all, words, plan, open, line, width, maxWidth, overflow);
    assert Flat(plan + [open]) + Concat([]) == Flat(plan) + Concat(open);
    assert Grouped(plan + [open], [], cap) by {
      forall j | 0 <= j < |plan + [open]| ensures |(plan + [open])[j]| == cap {
        if j < |plan| { assert (plan + [open])[j] == plan[j]; }
      }
    }
  }

  lemma SnocLinesOfWords(open: seq<seq<string>>, line: seq<string>)
    requires LinesOfWords(open) && AllWords(line)
    ensures LinesOfWords(open + [line])
  {
    var open' := open + [line];
    forall k | 0 <= k < |open'|
      ensures AllWords(open'[k])
    {
      if k < |open| { assert open'[k] == open[k]; }
    }
  }

  lemma SnocFlat(all: seq<string>, plan: Plan, open: seq<seq<string>>, line: seq<string>)
    requires Flat(plan) + Concat(open) + line + [] == all
    ensures Flat(plan) + Concat(open + [line]) == all
  {
    ConcatAppend(open, [line]);
    assert Concat([line]) == line + Concat([]);
  }

  lemma SnocBounded(plan: Plan, open: seq<seq<string>>, line: seq<string>,
                    width: string -> int, maxWidth: int, overflow: bool)
    requires Bounded(plan, open, line, width, maxWidth, overflow) && line != []
    ensures Bounded(plan, open + [line], [], width, maxWidth, overflow)
  {
    var open' := open + [line];
    forall k | 0 <= k < |open'| && open'[k] == []
      ensures plan == [] && k == 0 && overflow
    {
      assert open'[k] == open[k];
    }
    forall k | 0 <= k < |open'|
      ensures Fitted(open'[k], width, maxWidth)
    {
      if k < |open| { assert open'[k] == open[k]; }
    }
  }

  /** After the loop a non-empty open line joins the open slide. */
  lemma FinalLineClosed(all: seq<string>, slideLines: seq<string>, currentLine: string,
                        plan: Plan, open: seq<seq<string>>, line: seq<string>,
                        width: string -> int, maxWidth: int, overflow: bool)
    requires Consumed(all, [], plan, open, line) && line != []
    requires slideLines == RenderLines(open) && currentLine == LineText(line)
    requires Bounded(plan, open, line, width, maxWidth, overflow)
    ensures LinesOfWords(open + [line])
    ensures Flat(plan) + Concat(open + [line]) == all
    ensures slideLines + [Strip(currentLine)] == RenderLines(open + [line])
    ensures Bounded(plan, open + [line], [], width, maxWidth, overflow)
  {
    SnocLinesOfWords(open, line);
    SnocFlat(all, plan, open, line);
    ClosedLineText(line);
    RenderLinesSnoc(open, line);
    SnocBounded(plan, open, line, width, maxWidth, overflow);
  }

  /** After the loop the open line, if any, joins the open slide. */
  lemma FinalLine(all: seq<string>, slides: seq<string>, slideLines: seq<string>, currentLine: string,
                  plan: Plan, open: seq<seq<string>>, line: seq<string>,
                  cap: nat, width: string -> int, maxWidth: int, overflow: bool)
    requires State(all, [], slides, slideLines, currentLine, plan, open, line, cap, width, maxWidth, overflow)
    ensures var open' := if line != [] then open + [line] else open;
      && (currentLine != "" <==> line != [])
      && PlanOfWords(plan) && LinesOfWords(open')
      && Flat(plan) + Concat(open') == all
      && (if currentLine != "" then slideLines + [Strip(currentLine)] else slideLines) == RenderLines(open')
      && Bounded(plan, open', [], width, maxWidth, overflow)
      && (forall j :: 0 <= j < |plan| ==> |plan[j]| == cap)
      && |open'| <= cap
  {
    if line != [] {
      assert LineText(line) != "";
      FinalLineClosed(all, slideLines, currentLine, plan, open, line, width, maxWidth, overflow);
    } else {
      assert Flat(plan) + Concat(open) + [] + [] == Flat(plan) + Concat(open);
    }
  }

  /** Closing a non-empty last slide after full ones keeps the plan capped. */
  lemma PlanCappedSnoc(plan: Plan, last: seq<seq<string>>, cap: nat)
    requires forall j :: 0 <= j < |plan| ==> |plan[j]| == cap
    requires 1 <= |last| <= cap
    ensures PlanCapped(plan + [last], cap)
  {
    var plan' := plan + [last];
    forall j | 0 <= j < |plan'| ensures 1 <= |plan'[j]| <= cap && (j < |plan'| - 1 ==> |plan'[j]| == cap) {
      if j < |plan| { assert plan'[j] == plan[j]; }
    }
  }

  /** After the loop the ghost plan has every property of the promised output. */
  lemma FinalPlan(all: seq<string>, slides: seq<string>, slideLines: seq<string>, currentLine: string,
                  plan: Plan, open: seq<seq<string>>, line: seq<string>,
                  cap: nat, width: string -> int, maxWidth: int, overflow: bool)
    requires State(all, [], slides, slideLines, currentLine, plan, open, line, cap, width, maxWidth, overflow)
    ensures var lines := if currentLine != "" then slideLines + [Strip(currentLine)] else slideLines;
      var result := if lines != [] then slides + [Join(lines, '\n')] else slides;
      var open' := if line != [] then open + [line] else open;
      var plan' := if open' != [] then plan + [open'] else plan;
      && result == RenderSlides(plan')
      && PlanOfWords(plan') && Flat(plan') == all
      && PlanCapped(plan', cap) && PlanWidthOk(plan', width, maxWidth) && PlanEmptyOk(plan', overflow)
  {
    FinalLine(all, slides, slideLines, currentLine, plan, open, line, cap, width, maxWidth, overflow);
    var lines := if currentLine != "" then slideLines + [Strip(currentLine)] else slideLines;
    var open' := if line != [] then open + [line] else open;
    var plan' := if open' != [] then plan + [open'] else plan;
    if open' != [] {
      FlushStep(slides, lines, plan, open', [], width, maxWidth, overflow);
      PlanCappedSnoc(plan, open', cap);
    } else {
      assert Flat(plan) + [] == Flat(plan);
    }
  }

  /** After the loop: the last line and the last slide are flushed, and the
      result has every promised property. */
  lemma FinalState(text: string, slides: seq<string>, slideLines: seq<string>, currentLine: string,
                   plan: Plan, open: seq<seq<string>>, line: seq<string>,
                   maxLines: int, width: string -> int, maxWidth: int)
    requires State(Words(text), [], slides, slideLines, currentLine, plan, open, line, Cap(maxLines),
                   width, maxWidth, FirstWordOverflows(text, width, maxWidth))
    ensures var lines := if currentLine != "" then slideLines + [Strip(currentLine)] else slideLines;
      var result := if lines != [] then slides + [Join(lines, '\n')] else slides;
      && Covers(result, text)
      && (result == [] <==> Words(text) == [])
      && LineCapped(result, maxLines)
      && WidthBounded(result, width, maxWidth)
      && EmptyLineOnlyFirst(result, text, width, maxWidth)
      && LinesAreWordsJoined(result)
      && GreedyFill(result, text, width, maxWidth)
      && Wrapping(LineWords(AllLines(result)), Words(text), width, maxWidth)
  {
    var overflow := FirstWordOverflows(text, width, maxWidth);
    FinalPlan(Words(text), slides, slideLines, currentLine, plan, open, line, Cap(maxLines), width, maxWidth, overflow);
    FinalGreedy(Words(text), plan, open, line, width, maxWidth, overflow);
    var open' := if line != [] then open + [line] else open;
    var plan' := if open' != [] then plan + [open'] else plan;
    RenderedPlanProperties(plan', text, width, maxWidth, maxLines);
    GreedyRendered(plan', text, width, maxWidth, Cap(maxLines));
    WrapRendered(plan', text, width, maxWidth, Cap(maxLines));
    if plan' == [] {
      assert Flat(plan') == [];
    }
  }

  // ---------------------------------------------------------------------
  // The planner
  // ---------------------------------------------------------------------

  /** `split_text_into_slides(text, font, max_width, max_lines)`: pops words
      from `text.split()`, grows the current line while
      `width(current_line + word + ' ') <= maxWidth`, otherwise closes the
      line (stripped) and starts a new one with the word; a slide is closed
      as soon as it holds `maxLines` lines; what is left is flushed at the end. */
  method SplitTextIntoSlides(text: string, width: string -> int, maxWidth: int, maxLines: int)
    returns (slides: seq<string>)
    ensures Covers(slides, text)
    ensures slides == [] <==> Words(text) == []
    ensures LineCapped(slides, maxLines)
    ensures WidthBounded(slides, width, maxWidth)
    ensures EmptyLineOnlyFirst(slides, text, width, maxWidth)
    ensures LinesAreWordsJoined(slides)
    ensures GreedyFill(slides, text, width, maxWidth)
    ensures Wrapping(LineWords(AllLines(slides)), Words(text), width, maxWidth)
  {
    slides := [];
    var words := Words(text);
    var currentSlideLines: seq<string> := [];
    var currentLine := "";
    ghost var all := words;
    ghost var overflow := FirstWordOverflows(text, width, maxWidth);
    ghost var plan: Plan := [];
    ghost var open: seq<seq<string>> := [];
    ghost var line: seq<string> := [];
    ghost var cap := Cap(maxLines);
    while words != []
      invariant State(all, words, slides, currentSlideLines, currentLine, plan, open, line, cap, width, maxWidth, overflow)
    {
      var word := words[0];
      var potentialLine := currentLine + word + " ";
      if width(potentialLine) <= maxWidth {
        FitState(all, words, slides, currentSlideLines, currentLine, plan, open, line, cap, width, maxWidth, overflow);
        currentLine := potentialLine;
        line := line + [word];
      } else {
        OverflowState(all, words, slides, currentSlideLines, currentLine, plan, open, line, maxLines, width, maxWidth, overflow);
        currentSlideLines := currentSlideLines + [Strip(currentLine)];
        open := open + [line];
        currentLine := word + " ";
        line := [word];
        if |currentSlideLines| >= maxLines {
          slides := slides + [Join(currentSlideLines, '\n')];
          plan := plan + [open];
          currentSlideLines := [];
          open := [];
        }
      }
      words := words[1..];
    }
    FinalState(text, slides, currentSlideLines, currentLine, plan, open, line, maxLines, width, maxWidth);
    if currentLine != "" {
      currentSlideLines := currentSlideLines + [Strip(currentLine)];
    }
    if currentSlideLines != [] {
      slides := slides + [Join(currentSlideLines, '\n')];
    }
  }

  // ---------------------------------------------------------------------
  // Consequences of the planner's contract
  // ---------------------------------------------------------------------

  /** A line grown within the width ends within the width: the last test
      passed was on the whole line plus a space. */
  lemma FittedLine(ws: seq<string>, width: string -> int, maxWidth: int)
    requires Fitted(ws, width, maxWidth) && |ws| >= 2
    ensures width(Join(ws, ' ') + " ") <= maxWidth
  {
    var m := |ws| - 1;
    var front := ws[..m];
    assert width(LineText(front) + ws[m] + " ") <= maxWidth;
    FrontLast(ws);
    FitText(front, ws[m]);
  }

  lemma FrontLast(ws: seq<string>)
    requires ws != []
    ensures ws[..|ws| - 1] + [ws[|ws| - 1]] == ws
  {
  }

  /** Every line of two or more words of a planned slide, plus a space, fits. */
  lemma LinesWithinWidth(slides: seq<string>, width: string -> int, maxWidth: int)
    requires WidthBounded(slides, width, maxWidth) && LinesAreWordsJoined(slides)
    ensures forall j, k | 0 <= j < |slides| && 0 <= k < |SlideLines(slides[j])| ::
      |Words(SlideLines(slides[j])[k])| >= 2 ==> width(SlideLines(slides[j])[k] + " ") <= maxWidth
  {
    forall j, k | 0 <= j < |slides| && 0 <= k < |SlideLines(slides[j])| && |Words(SlideLines(slides[j])[k])| >= 2
      ensures width(SlideLines(slides[j])[k] + " ") <= maxWidth
    {
      FittedLine(Words(SlideLines(slides[j])[k]), width, maxWidth);
    }
  }

  lemma GreedyTail(ls: seq<seq<string>>, width: string -> int, maxWidth: int)
    requires ls != [] && GreedyLines(ls, width, maxWidth)
    ensures GreedyLines(ls[1..], width, maxWidth)
  {
    var t := ls[1..];
    forall i | 0 <= i < |t| - 1 && t[i + 1] != []
      ensures width(LineText(t[i]) + t[i + 1][0] + " ") > maxWidth
    {
      assert t[i] == ls[i + 1] && t[i + 1] == ls[i + 2];
    }
  }

  /** Of two wrappings of the same words into non-empty lines, the first
      line of a greedy one is at least as long as the other's: a shorter
      one would have taken the next word, which fits on the longer line. */
  lemma FirstLineLongest(a: seq<seq<string>>, b: seq<seq<string>>, width: string -> int, maxWidth: int)
    requires a != [] && b != [] && Concat(a) == Concat(b)
    requires forall i | 0 <= i < |a| :: a[i] != []
    requires GreedyLines(a, width, maxWidth) && Fitted(b[0], width, maxWidth)
    ensures |a[0]| >= |b[0]|
  {
    var m := |a[0]|;
    if m < |b[0]| {
      var w := NextWord(a, b);
    }
  }

  /** When the first line of `a` is shorter than that of `b`, the word
      after it starts the second line of `a` and continues the first of `b`. */
  lemma NextWord(a: seq<seq<string>>, b: seq<seq<string>>) returns (w: string)
    requires a != [] && b != [] && Concat(a) == Concat(b) && |a[0]| < |b[0]|
    requires forall i | 0 <= i < |a| :: a[i] != []
    ensures |a| >= 2 && a[1][0] == w && b[0][|a[0]|] == w && b[0][..|a[0]|] == a[0]
  {
    var ws := Concat(a);
    var m := |a[0]|;
    var rest := Concat(a[1..]);
    assert ws == a[0] + rest;
    assert ws == b[0] + Concat(b[1..]);
    assert |ws| >= |b[0]| > m;
    assert a[1..] != [];
    assert rest == a[1] + Concat(a[2..]) by {
      assert a[1..][0] == a[1] && a[1..][1..] == a[2..];
    }
    w := a[1][0];
    assert ws[m] == rest[0] == w;
    assert b[0][m] == ws[m];
    assert b[0][..m] == ws[..m] == a[0];
  }

  lemma {:induction false} NonEmptyWrapUnique(a: seq<seq<string>>, b: seq<seq<string>>, width: string -> int, maxWidth: int)
    requires Concat(a) == Concat(b)
    requires forall i | 0 <= i < |a| :: a[i] != [] && Fitted(a[i], width, maxWidth)
    requires forall i | 0 <= i < |b| :: b[i] != [] && Fitted(b[i], width, maxWidth)
    requires GreedyLines(a, width, maxWidth) && GreedyLines(b, width, maxWidth)
    ensures a == b
    decreases |a|
  {
    if a != [] && b != [] {
      var ws := Concat(a);
      FirstLineLongest(a, b, width, maxWidth);
      FirstLineLongest(b, a, width, maxWidth);
      assert ws == a[0] + Concat(a[1..]) && ws == b[0] + Concat(b[1..]);
      assert a[0] == ws[..|a[0]|] == b[0];
      assert Concat(a[1..]) == Concat(b[1..]);
      GreedyTail(a, width, maxWidth);
      GreedyTail(b, width, maxWidth);
      NonEmptyWrapUnique(a[1..], b[1..], width, maxWidth);
      assert a == [a[0]] + a[1..] && b == [b[0]] + b[1..];
    }
  }

  /** The greedy wrapping of a text's words is unique: the planner's line
      breaks, and the words on every line, are determined by the text, the
      width function and the bound. */
  lemma WrapUnique(a: seq<seq<string>>, b: seq<seq<string>>, ws: seq<string>, width: string -> int, maxWidth: int)
    requires Wrapping(a, ws, width, maxWidth) && Wrapping(b, ws, width, maxWidth)
    ensures a == b
  {
    if a != [] && a[0] == [] {
      assert b != [] && b[0] == [];
      assert Concat(a) == a[0] + Concat(a[1..]) && Concat(b) == b[0] + Concat(b[1..]);
      assert a[0] + Concat(a[1..]) == Concat(a[1..]) && b[0] + Concat(b[1..]) == Concat(b[1..]);
      GreedyTail(a, width, maxWidth);
      GreedyTail(b, width, maxWidth);
      NonEmptyWrapUnique(a[1..], b[1..], width, maxWidth);
      assert a == [a[0]] + a[1..] && b == [b[0]] + b[1..];
    } else {
      if b != [] {
        assert b[0] != [];
      }
      NonEmptyWrapUnique(a, b, width, maxWidth);
    }
  }
}
