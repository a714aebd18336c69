/**
 The two text parsers of the guide update script. `parse_faq_content` turns the
 lines of an FAQ text into question/answer pairs with a small state machine;
 `parse_main_content` groups the lines of a guide's main text into titled
 sections of numbered steps, bullets or paragraphs.

 Each parser is modelled as the left-to-right fold the script runs, and is proved
 equal to a block-by-block reference definition: skip to the next question (or
 heading), take the run of lines up to the one after, repeat.
 */
module GuideText {
  import opened Common
  import opened Text

  // ---------------------------------------------------------------------------
  // Lines.

  /** `text.split('\n')`. */
  function LinesOf(text: string): (r: seq<string>)
    ensures |r| >= 1
    ensures Join(r, "\n") == text
  {
    Split(text, '\n')
  }

  /** `[line.strip() for line in lines]`. */
  function StripAll(lines: seq<string>): (r: seq<string>)
    ensures |r| == |lines|
    ensures forall i :: 0 <= i < |r| ==> r[i] == Strip(lines[i])
  {
    if |lines| == 0 then [] else [Strip(lines[0])] + StripAll(lines[1..])
  }

  // ---------------------------------------------------------------------------
  // parse_faq_content.

  datatype FaqItem = FaqItem(question: string, answer: string)

  /** The filter before the loop: a line survives when it is not blank and is not
      the "Common questions" heading, in any case. */
  predicate KeptFaqLine(line: string) {
    Strip(line) != "" && Lower(Strip(line)) != "common questions"
  }

  /** The lines the filter keeps, in order. */
  function FaqLines(lines: seq<string>): (r: seq<string>)
    ensures |r| <= |lines|
    ensures forall i :: 0 <= i < |r| ==> KeptFaqLine(r[i])
  {
    if |lines| == 0 then []
    else (if KeptFaqLine(lines[0]) then [lines[0]] else []) + FaqLines(lines[1..])
  }

  /** A line is kept exactly when it is an input line that passes the filter. */
  lemma {:induction false} FaqLinesMembers(lines: seq<string>, line: string)
    ensures line in FaqLines(lines) <==> line in lines && KeptFaqLine(line)
  {
    if |lines| > 0 {
      assert lines == [lines[0]] + lines[1..];
      var keep := KeptFaqLine(lines[0]);
      var h := if keep then [lines[0]] else [];
      assert FaqLines(lines) == h + FaqLines(lines[1..]);
      assert line in FaqLines(lines) <==> line in h || line in FaqLines(lines[1..]);
      FaqLinesMembers(lines[1..], line);
    }
  }

  /** The filter keeps order: filtering a concatenation filters each part. */
  lemma {:induction false} FaqLinesAppend(a: seq<string>, b: seq<string>)
    ensures FaqLines(a + b) == FaqLines(a) + FaqLines(b)
  {
    if |a| > 0 {
      var x, t := a[0], a[1..];
      assert a == [x] + t && a + b == [x] + (t + b);
      FaqLinesCons(x, t + b);
      FaqLinesCons(x, t);
      FaqLinesAppend(t, b);
      var h := if KeptFaqLine(x) then [x] else [];
      assert h + (FaqLines(t) + FaqLines(b)) == (h + FaqLines(t)) + FaqLines(b);
    } else {
      assert a + b == b;
    }
  }

  lemma FaqLinesCons(x: string, s: seq<string>)
    ensures FaqLines([x] + s) == (if KeptFaqLine(x) then [x] else []) + FaqLines(s)
  {
    assert ([x] + s)[0] == x && ([x] + s)[1..] == s;
  }

  /** `line.endswith('?')`. */
  predicate IsQuestion(line: string) {
    EndsWith(line, '?')
  }

  /** The loop variables `current_q`, `current_a` and `faq_items`. */
  datatype FaqState = FaqState(question: Option<string>, answer: seq<string>, items: seq<FaqItem>)

  /** `current_q and current_a`: a non-empty question and at least one answer line. */
  predicate HasPending(st: FaqState) {
    st.question.Some? && |st.question.value| > 0 && |st.answer| > 0
  }

  /** `faq_items` with the pending pair appended when there is one. */
  function Flush(st: FaqState): seq<FaqItem> {
    if HasPending(st) then st.items + [FaqItem(st.question.value, Join(st.answer, " "))]
    else st.items
  }

  /** One iteration of the loop on a stripped line. Items are only ever appended,
      at most one per line, and the one appended is the complete pending pair; a
      blank line changes nothing the parse would return if the text ended there;
      a question line saves the pending pair and opens a new one; an answer line
      emits nothing. */
  function FaqStep(st: FaqState, line: string): (r: FaqState)
    ensures |st.items| <= |r.items| <= |st.items| + 1 && r.items[..|st.items|] == st.items
    ensures |r.items| > |st.items| ==> HasPending(st) && r.items == Flush(st)
    ensures line == "" ==> Flush(r) == Flush(st) && !HasPending(r)
    ensures IsQuestion(line) ==> r.question == Some(line) && r.answer == [] && r.items == Flush(st)
    ensures line != "" && !IsQuestion(line) ==> r.items == st.items && r.question == st.question
  {
    if line == "" then
      if HasPending(st) then FaqState(None, [], Flush(st)) else st
    else if IsQuestion(line) then FaqState(Some(line), [], Flush(st))
    else FaqState(st.question, st.answer + [line], st.items)
  }

  function FaqRun(st: FaqState, lines: seq<string>): FaqState
    decreases |lines|
  {
    if |lines| == 0 then st else FaqRun(FaqStep(st, lines[0]), lines[1..])
  }

  /** `parse_faq_content(faq_text)`. */
  function ParseFaq(text: string): (items: seq<FaqItem>)
    ensures items == FaqBlocks(StripAll(FaqLines(LinesOf(text))))
  {
    var lines := StripAll(FaqLines(LinesOf(text)));
    NonEmptyStripped(FaqLines(LinesOf(text)));
    FaqRunBlocks(FaqState(None, [], []), lines);
    Flush(FaqRun(FaqState(None, [], []), lines))
  }

  lemma NonEmptyStripped(lines: seq<string>)
    requires forall i :: 0 <= i < |lines| ==> KeptFaqLine(lines[i])
    ensures forall i :: 0 <= i < |StripAll(lines)| ==> StripAll(lines)[i] != ""
  {
  }

  // The reference definition.

  /** The number of lines before the first question (all of them when there is none). */
  function AnswerRun(lines: seq<string>): (n: nat)
    ensures n <= |lines|
    ensures forall i :: 0 <= i < n ==> !IsQuestion(lines[i])
    ensures n < |lines| ==> IsQuestion(lines[n])
  {
    if |lines| == 0 || IsQuestion(lines[0]) then 0 else 1 + AnswerRun(lines[1..])
  }

  /** The FAQ read block by block: lines before a question are skipped; a question
      followed by at least one non-question line yields one pair whose answer is
      those lines joined by spaces; a question directly followed by another
      question or by the end yields nothing. */
  function FaqBlocks(lines: seq<string>): seq<FaqItem>
    decreases |lines|
  {
    if |lines| == 0 then []
    else if !IsQuestion(lines[0]) then FaqBlocks(lines[1..])
    else
      var n := AnswerRun(lines[1..]);
      Pair(lines[0], lines[1..1 + n]) + FaqBlocks(lines[1 + n..])
  }

  /** The pair a question and its answer lines make: none without answer lines. */
  function Pair(question: string, answer: seq<string>): seq<FaqItem> {
    if |answer| > 0 then [FaqItem(question, Join(answer, " "))] else []
  }

  /** The loop computes the block reading. From any state, the rest of the run
      completes the pending question with the answer lines up to the next
      question, and reads the remaining lines block by block; with no pending
      question, the leading answer lines are discarded. */
  lemma {:induction false} FaqRunBlocks(st: FaqState, lines: seq<string>)
    requires forall i :: 0 <= i < |lines| ==> lines[i] != ""
    requires st.question.Some? ==> st.question.value != ""
    ensures st.question.None? ==> Flush(FaqRun(st, lines)) == st.items + FaqBlocks(lines)
    ensures st.question.Some? ==>
              Flush(FaqRun(st, lines)) ==
                st.items + Pair(st.question.value, st.answer + lines[..AnswerRun(lines)])
                + FaqBlocks(lines[AnswerRun(lines)..])
    decreases |lines|
  {
    if |lines| == 0 {
      assert st.answer + lines[..0] == st.answer;
      if st.question.Some? {
        FlushPair(st);
      }
    } else {
      FaqRunBlocks(FaqStep(st, lines[0]), lines[1..]);
      if IsQuestion(lines[0]) {
        EmptyPrefix(lines[1..][..AnswerRun(lines[1..])]);
        FaqQuestionLine(st, lines);
      } else {
        FaqAnswerLine(st, lines);
      }
    }
  }

  /** The inductive step of `FaqRunBlocks` on a question line. */
  lemma FaqQuestionLine(st: FaqState, lines: seq<string>)
    requires |lines| > 0 && lines[0] != "" && IsQuestion(lines[0])
    requires st.question.Some? ==> st.question.value != ""
    requires Flush(FaqRun(FaqStep(st, lines[0]), lines[1..])) ==
               Flush(st) + Pair(lines[0], lines[1..][..AnswerRun(lines[1..])])
               + FaqBlocks(lines[1..][AnswerRun(lines[1..])..])
    ensures st.question.None? ==> Flush(FaqRun(st, lines)) == st.items + FaqBlocks(lines)
    ensures st.question.Some? ==>
              Flush(FaqRun(st, lines)) ==
                st.items + Pair(st.question.value, st.answer + lines[..AnswerRun(lines)])
                + FaqBlocks(lines[AnswerRun(lines)..])
  {
    var l := lines[0];
    var m := AnswerRun(lines[1..]);
    var pair := Pair(l, lines[1..][..m]);
    var rest := FaqBlocks(lines[1..][m..]);
    QuestionBlock(lines);
    assert FaqRun(st, lines) == FaqRun(FaqStep(st, l), lines[1..]);
    Assoc(Flush(st), pair, rest);
    if st.question.Some? {
      FlushPair(st);
      assert AnswerRun(lines) == 0;
      WholeSlices(st.answer, lines);
    }
  }

  /** A block read from a question line. */
  lemma QuestionBlock(lines: seq<string>)
    requires |lines| > 0 && IsQuestion(lines[0])
    ensures FaqBlocks(lines) ==
              Pair(lines[0], lines[1..][..AnswerRun(lines[1..])]) + FaqBlocks(lines[1..][AnswerRun(lines[1..])..])
  {
    var m := AnswerRun(lines[1..]);
    assert lines[1..][m..] == lines[1 + m..];
    assert lines[1..][..m] == lines[1..1 + m];
  }

  /** The inductive step of `FaqRunBlocks` on an answer line. */
  lemma FaqAnswerLine(st: FaqState, lines: seq<string>)
    requires |lines| > 0 && lines[0] != "" && !IsQuestion(lines[0])
    requires st.question.None? ==>
               Flush(FaqRun(FaqStep(st, lines[0]), lines[1..])) == st.items + FaqBlocks(lines[1..])
    requires st.question.Some? ==>
               Flush(FaqRun(FaqStep(st, lines[0]), lines[1..])) ==
                 st.items + Pair(st.question.value, st.answer + [lines[0]] + lines[1..][..AnswerRun(lines[1..])])
                 + FaqBlocks(lines[1..][AnswerRun(lines[1..])..])
    ensures st.question.None? ==> Flush(FaqRun(st, lines)) == st.items + FaqBlocks(lines)
    ensures st.question.Some? ==>
              Flush(FaqRun(st, lines)) ==
                st.items + Pair(st.question.value, st.answer + lines[..AnswerRun(lines)])
                + FaqBlocks(lines[AnswerRun(lines)..])
  {
    var l := lines[0];
    var m := AnswerRun(lines[1..]);
    assert FaqRun(st, lines) == FaqRun(FaqStep(st, l), lines[1..]);
    if st.question.Some? {
      assert AnswerRun(lines) == 1 + m;
      assert lines[1..][m..] == lines[1 + m..];
      ConsSlice(st.answer, lines, m);
    } else {
      assert FaqBlocks(lines) == FaqBlocks(lines[1..]);
    }
  }

  lemma Assoc<T>(a: seq<T>, b: seq<T>, c: seq<T>)
    ensures a + b + c == a + (b + c)
  {
  }

  lemma WholeSlices<T>(a: seq<T>, s: seq<T>)
    ensures a + s[..0] == a && s[0..] == s
  {
  }

  lemma EmptyPrefix<T>(s: seq<T>)
    ensures [] + s == s
  {
  }

  lemma ConsSlice<T>(a: seq<T>, lines: seq<T>, m: nat)
    requires m < |lines|
    ensures a + [lines[0]] + lines[1..][..m] == a + lines[..1 + m]
  {
  }

  /** A pending question is flushed as its pair. */
  lemma FlushPair(st: FaqState)
    requires st.question.Some? && st.question.value != ""
    ensures Flush(st) == st.items + Pair(st.question.value, st.answer)
  {
  }

  // Properties of the reference reading.

  /** The number of question lines. */
  function QuestionCount(lines: seq<string>): (n: nat)
    ensures n <= |lines|
  {
    if |lines| == 0 then 0 else (if IsQuestion(lines[0]) then 1 else 0) + QuestionCount(lines[1..])
  }

  /** Skipping lines that are not questions does not change the count. */
  lemma {:induction false} QuestionCountSkip(lines: seq<string>, n: nat)
    requires n <= |lines|
    requires forall i :: 0 <= i < n ==> !IsQuestion(lines[i])
    ensures QuestionCount(lines[n..]) == QuestionCount(lines)
    decreases n
  {
    if n > 0 {
      QuestionCountSkip(lines[1..], n - 1);
      assert lines[1..][n - 1..] == lines[n..];
    }
  }

  /** `" ".join(parts)` of non-empty parts is non-empty. */
  lemma JoinNonEmpty(parts: seq<string>, sep: string)
    requires |parts| > 0 && parts[0] != ""
    ensures Join(parts, sep) != ""
  {
    if |parts| > 1 {
      assert |Join(parts, sep)| >= |parts[0]|;
    }
  }

  /** A question's pair, if any, carries that question and a non-empty answer. */
  lemma PairShape(question: string, answer: seq<string>)
    requires forall i :: 0 <= i < |answer| ==> answer[i] != ""
    ensures |Pair(question, answer)| <= 1
    ensures |Pair(question, answer)| == 1 ==>
              Pair(question, answer)[0].question == question && Pair(question, answer)[0].answer != ""
  {
    if |answer| > 0 {
      JoinNonEmpty(answer, " ");
    }
  }

  /** Every pair's question is an input line ending in `?`, every answer is
      non-empty, and there are never more pairs than question lines. */
  lemma {:induction false} FaqBlocksShape(lines: seq<string>)
    requires forall i :: 0 <= i < |lines| ==> lines[i] != ""
    ensures var r := FaqBlocks(lines);
            && |r| <= QuestionCount(lines)
            && (forall k :: 0 <= k < |r| ==> IsQuestion(r[k].question) && r[k].question in lines)
            && (forall k :: 0 <= k < |r| ==> r[k].answer != "")
    decreases |lines|, 1
  {
    if |lines| > 0 {
      if IsQuestion(lines[0]) {
        QuestionBlockShape(lines);
      } else {
        SkippedLineShape(lines);
      }
    }
  }

  /** The case of a leading line that is not a question: it is skipped. */
  lemma {:induction false} SkippedLineShape(lines: seq<string>)
    requires |lines| > 0 && !IsQuestion(lines[0])
    requires forall i :: 0 <= i < |lines| ==> lines[i] != ""
    ensures var r := FaqBlocks(lines);
            && |r| <= QuestionCount(lines)
            && (forall k :: 0 <= k < |r| ==> IsQuestion(r[k].question) && r[k].question in lines)
            && (forall k :: 0 <= k < |r| ==> r[k].answer != "")
    decreases |lines|, 0
  {
    var r := FaqBlocks(lines);
    assert r == FaqBlocks(lines[1..]);
    FaqBlocksShape(lines[1..]);
    forall k | 0 <= k < |r| ensures r[k].question in lines {
      assert r[k].question in lines[1..];
    }
  }

  /** The case of a leading question: its pair, then the blocks after its answer. */
  lemma {:induction false} QuestionBlockShape(lines: seq<string>)
    requires |lines| > 0 && IsQuestion(lines[0])
    requires forall i :: 0 <= i < |lines| ==> lines[i] != ""
    ensures var r := FaqBlocks(lines);
            && |r| <= QuestionCount(lines)
            && (forall k :: 0 <= k < |r| ==> IsQuestion(r[k].question) && r[k].question in lines)
            && (forall k :: 0 <= k < |r| ==> r[k].answer != "")
    decreases |lines|, 0
  {
    var n := AnswerRun(lines[1..]);
    var rest := lines[1 + n..];
    assert rest == lines[1..][n..];
    var head := Pair(lines[0], lines[1..1 + n]);
    var tail := FaqBlocks(rest);
    FaqBlocksQuestion(lines);
    FaqBlocksShape(rest);
    QuestionCountSkip(lines[1..], n);
    PairShape(lines[0], lines[1..1 + n]);
    assert PairsFrom(head, lines);
    assert PairsFrom(tail, rest);
    PairsFromAppend(head, tail, lines, 1 + n);
  }

  /** Every pair's question is a line of `lines` ending in `?`, with a non-empty answer. */
  ghost predicate PairsFrom(r: seq<FaqItem>, lines: seq<string>) {
    forall k :: 0 <= k < |r| ==> IsQuestion(r[k].question) && r[k].question in lines && r[k].answer != ""
  }

  lemma PairsFromAppend(head: seq<FaqItem>, tail: seq<FaqItem>, lines: seq<string>, m: nat)
    requires m <= |lines| && PairsFrom(head, lines) && PairsFrom(tail, lines[m..])
    ensures PairsFrom(head + tail, lines)
  {
    forall k | 0 <= k < |head + tail|
      ensures (head + tail)[k].question in lines
    {
      if k >= |head| {
        assert (head + tail)[k] == tail[k - |head|];
        assert tail[k - |head|].question in lines[m..];
      }
    }
  }

  /** One step of the block reading at a question line. */
  lemma FaqBlocksQuestion(lines: seq<string>)
    requires |lines| > 0 && IsQuestion(lines[0])
    ensures var n := AnswerRun(lines[1..]);
            FaqBlocks(lines) == Pair(lines[0], lines[1..1 + n]) + FaqBlocks(lines[1 + n..])
  {
  }


  /** What the script promises about its pairs, for any input text. */
  lemma ParseFaqShape(text: string)
    ensures var items := ParseFaq(text);
            var lines := StripAll(FaqLines(LinesOf(text)));
            && |items| <= QuestionCount(lines)
            && (forall k :: 0 <= k < |items| ==> IsQuestion(items[k].question) && items[k].question in lines)
            && (forall k :: 0 <= k < |items| ==> items[k].answer != "")
  {
    NonEmptyStripped(FaqLines(LinesOf(text)));
    FaqBlocksShape(StripAll(FaqLines(LinesOf(text))));
  }

  // ---------------------------------------------------------------------------
  // parse_main_content.

  /** `section['type']`: `None`, `'steps'` or `'list'`. */
  datatype Kind = Plain | Steps | Bullets

  datatype Section = Section(title: string, content: seq<string>, kind: Kind)

  /** `\d` on the characters this model distinguishes: the ASCII digits. */
  predicate IsDigit(c: char) {
    '0' <= c <= '9'
  }

  /** The bullet characters `[•\-\*]`. */
  predicate IsBullet(c: char) {
    c == '\U{2022}' || c == '-' || c == '*'
  }

  /** A non-empty stripped line that does not start with a bullet or a digit
      opens a section. */
  predicate IsHeading(line: string) {
    |line| > 0 && !IsBullet(line[0]) && !IsDigit(line[0])
  }

  /** The number of leading digits. */
  function DigitRun(s: string): (n: nat)
    ensures n <= |s|
    ensures forall i :: 0 <= i < n ==> IsDigit(s[i])
    ensures n < |s| ==> !IsDigit(s[n])
  {
    if |s| == 0 || !IsDigit(s[0]) then 0 else 1 + DigitRun(s[1..])
  }

  /** `re.match(r'^[\d]+\.', line)`: digits, then a dot. */
  predicate IsNumbered(line: string) {
    0 < DigitRun(line) < |line| && line[DigitRun(line)] == '.'
  }

  /** `re.sub(r'^[\d]+\.\s*', '', line)`: the text after the number, its dot and
      the whitespace that follows. */
  function StepText(line: string): (r: string)
    requires IsNumbered(line)
    ensures |r| < |line| && line[|line| - |r|..] == r
    ensures |line| - |r| > DigitRun(line)
    ensures forall i :: 0 <= i < DigitRun(line) ==> IsDigit(line[i])
    ensures line[DigitRun(line)] == '.'
    ensures forall i :: DigitRun(line) < i < |line| - |r| ==> IsSpace(line[i])
    ensures |r| == 0 || !IsSpace(r[0])
  {
    var rest := line[DigitRun(line) + 1..];
    rest[LeadingSpaces(rest)..]
  }

  /** `re.sub(r'^[•\-\*]\s*', '', line)`: the text after the bullet and the
      whitespace that follows. */
  function BulletText(line: string): (r: string)
    requires |line| > 0 && IsBullet(line[0])
    ensures |r| < |line| && line[|line| - |r|..] == r
    ensures forall i :: 0 < i < |line| - |r| ==> IsSpace(line[i])
    ensures |r| == 0 || !IsSpace(r[0])
  {
    var rest := line[1..];
    rest[LeadingSpaces(rest)..]
  }

  /** What a line inside a section contributes: a step without its number, a
      bullet without its bullet, or the line itself as a paragraph (a line that
      starts with a digit but has no `N.` prefix stays as it is). */
  function ItemText(line: string): string {
    if IsNumbered(line) then StepText(line)
    else if |line| > 0 && IsBullet(line[0]) then BulletText(line)
    else line
  }

  /** A line inside a section that starts with a digit but has no `N.` prefix is
      kept whole as a paragraph and leaves the section type alone. */
  lemma DigitParagraphKept(sec: Section, line: string)
    requires line != "" && IsDigit(line[0]) && !IsNumbered(line)
    ensures AddItem(sec, line) == Section(sec.title, sec.content + [line], sec.kind)
  {
    assert !IsBullet(line[0]);
  }

  /** The section type after a line: a step sets `steps`, a bullet sets `list`,
      anything else leaves it. */
  function KindAfter(k: Kind, line: string): Kind {
    if IsNumbered(line) then Steps
    else if |line| > 0 && IsBullet(line[0]) then Bullets
    else k
  }

  /** The loop variables `current_section` and `sections`. */
  datatype MainState = MainState(current: Option<Section>, sections: seq<Section>)

  /** `sections` with the current section appended when there is one. */
  function Close(st: MainState): seq<Section> {
    if st.current.Some? then st.sections + [st.current.value] else st.sections
  }

  function AddItem(sec: Section, line: string): Section {
    Section(sec.title, sec.content + [ItemText(line)], KindAfter(sec.kind, line))
  }

  /** One iteration of the loop on a stripped line. Lines before the first
      heading are dropped. */
  function MainStep(st: MainState, line: string): MainState {
    if line == "" then st
    else if IsHeading(line) then MainState(Some(Section(line, [], Plain)), Close(st))
    else if st.current.None? then st
    else MainState(Some(AddItem(st.current.value, line)), st.sections)
  }

  /** What one iteration does: a heading closes the open section and opens an
      empty one after it; any other line never opens, closes or renames a
      section, and inside a section a non-blank one adds its item text. */
  lemma MainStepEffect(st: MainState, line: string)
    ensures var r := MainStep(st, line);
            && (IsHeading(line) ==> Close(r) == Close(st) + [Section(line, [], Plain)])
            && (!IsHeading(line) ==>
                  && r.sections == st.sections
                  && (r.current.Some? <==> st.current.Some?)
                  && (st.current.Some? ==> r.current.value.title == st.current.value.title))
            && (!IsHeading(line) && line != "" && st.current.Some? ==>
                  r.current.value.content == st.current.value.content + [ItemText(line)])
  {
  }

  function MainRun(st: MainState, lines: seq<string>): MainState
    decreases |lines|
  {
    if |lines| == 0 then st else MainRun(MainStep(st, lines[0]), lines[1..])
  }

  /** `parse_main_content(text)`. */
  function ParseMain(text: string): (sections: seq<Section>)
    ensures sections == MainBlocks(StripAll(LinesOf(text)))
  {
    var lines := StripAll(LinesOf(text));
    MainRunBlocks(MainState(None, []), lines);
    Close(MainRun(MainState(None, []), lines))
  }

  // The reference definition.

  /** The number of lines before the first heading (all of them when there is none). */
  function SectionRun(lines: seq<string>): (n: nat)
    ensures n <= |lines|
    ensures forall i :: 0 <= i < n ==> !IsHeading(lines[i])
    ensures n < |lines| ==> IsHeading(lines[n])
  {
    if |lines| == 0 || IsHeading(lines[0]) then 0 else 1 + SectionRun(lines[1..])
  }

  /** The items of a section body: one per non-empty line, in order. */
  function Contents(body: seq<string>): (r: seq<string>)
    ensures |r| <= |body|
  {
    if |body| == 0 then []
    else (if body[0] == "" then [] else [ItemText(body[0])]) + Contents(body[1..])
  }

  /** The type a section body leaves: that of its last step or bullet line, `k`
      when it has none. */
  function LastMarkerKind(body: seq<string>, k: Kind): Kind
    decreases |body|
  {
    if |body| == 0 then k
    else
      var last := body[|body| - 1];
      if IsNumbered(last) then Steps
      else if |last| > 0 && IsBullet(last[0]) then Bullets
      else LastMarkerKind(body[..|body| - 1], k)
  }

  /** The main text read section by section: lines before the first heading are
      skipped; each heading opens a section holding the lines up to the next
      heading. */
  function MainBlocks(lines: seq<string>): seq<Section>
    decreases |lines|
  {
    if |lines| == 0 then []
    else if !IsHeading(lines[0]) then MainBlocks(lines[1..])
    else
      var n := SectionRun(lines[1..]);
      [Section(lines[0], Contents(lines[1..][..n]), LastMarkerKind(lines[1..][..n], Plain))]
        + MainBlocks(lines[1..][n..])
  }

  /** A section extended by the lines of `body`. */
  function Extend(sec: Section, body: seq<string>): Section {
    Section(sec.title, sec.content + Contents(body), LastMarkerKind(body, sec.kind))
  }

  /** Scanning a body from the back agrees with updating the type line by line. */
  lemma {:induction false} LastMarkerKindCons(line: string, body: seq<string>, k: Kind)
    ensures LastMarkerKind([line] + body, k) == LastMarkerKind(body, KindAfter(k, line))
    decreases |body|
  {
    var b := [line] + body;
    if |body| > 0 {
      assert b[..|b| - 1] == [line] + body[..|body| - 1];
      assert b[|b| - 1] == body[|body| - 1];
      LastMarkerKindCons(line, body[..|body| - 1], k);
    } else {
      assert b[..0] == [];
    }
  }

  /** A section extended by one more line and then a body is the section
      extended by both. */
  lemma ExtendCons(sec: Section, line: string, body: seq<string>)
    requires line != "" && !IsHeading(line)
    ensures Extend(AddItem(sec, line), body) == Extend(sec, [line] + body)
  {
    LastMarkerKindCons(line, body, sec.kind);
    assert ([line] + body)[1..] == body;
    Assoc(sec.content, [ItemText(line)], Contents(body));
  }

  /** An empty line extends nothing. */
  lemma ExtendBlank(sec: Section, body: seq<string>)
    ensures Extend(sec, body) == Extend(sec, [""] + body)
  {
    var b := [""] + body;
    assert b[1..] == body;
    assert Contents(b) == [] + Contents(body);
    EmptyPrefix(Contents(body));
    LastMarkerKindCons("", body, sec.kind);
    assert KindAfter(sec.kind, "") == sec.kind;
  }

  /** The loop computes the section reading. From any state, the rest of the run
      completes the current section with the lines up to the next heading, and
      reads the remaining lines section by section; with no current section, the
      leading lines are dropped. */
  lemma {:induction false} MainRunBlocks(st: MainState, lines: seq<string>)
    ensures st.current.None? ==> Close(MainRun(st, lines)) == st.sections + MainBlocks(lines)
    ensures st.current.Some? ==>
              Close(MainRun(st, lines)) ==
                st.sections + [Extend(st.current.value, lines[..SectionRun(lines)])]
                + MainBlocks(lines[SectionRun(lines)..])
    decreases |lines|
  {
    if |lines| == 0 {
      if st.current.Some? {
        WholeSlices(st.current.value.content, lines);
      }
    } else {
      MainRunBlocks(MainStep(st, lines[0]), lines[1..]);
      if IsHeading(lines[0]) {
        MainHeadingLine(st, lines);
      } else {
        MainBodyLine(st, lines);
      }
    }
  }

  /** A section read from a heading line. */
  lemma HeadingBlock(lines: seq<string>)
    requires |lines| > 0 && IsHeading(lines[0])
    ensures var n := SectionRun(lines[1..]);
            MainBlocks(lines) ==
              [Extend(Section(lines[0], [], Plain), lines[1..][..n])] + MainBlocks(lines[1..][n..])
  {
    var n := SectionRun(lines[1..]);
    EmptyPrefix(Contents(lines[1..][..n]));
  }

  /** The inductive step of `MainRunBlocks` on a heading line. */
  lemma MainHeadingLine(st: MainState, lines: seq<string>)
    requires |lines| > 0 && IsHeading(lines[0])
    requires var m := SectionRun(lines[1..]);
             Close(MainRun(MainStep(st, lines[0]), lines[1..])) ==
               Close(st) + [Extend(Section(lines[0], [], Plain), lines[1..][..m])]
               + MainBlocks(lines[1..][m..])
    ensures st.current.None? ==> Close(MainRun(st, lines)) == st.sections + MainBlocks(lines)
    ensures st.current.Some? ==>
              Close(MainRun(st, lines)) ==
                st.sections + [Extend(st.current.value, lines[..SectionRun(lines)])]
                + MainBlocks(lines[SectionRun(lines)..])
  {
    var m := SectionRun(lines[1..]);
    var first := [Extend(Section(lines[0], [], Plain), lines[1..][..m])];
    var rest := MainBlocks(lines[1..][m..]);
    HeadingBlock(lines);
    assert MainRun(st, lines) == MainRun(MainStep(st, lines[0]), lines[1..]);
    Assoc(Close(st), first, rest);
    if st.current.Some? {
      var sec := st.current.value;
      assert SectionRun(lines) == 0;
      WholeSlices(sec.content, lines);
      assert Extend(sec, lines[..0]) == sec;
    }
  }

  /** The two ensures of `MainRunBlocks`, as the induction hypothesis of its steps. */
  ghost predicate RunReads(st: MainState, lines: seq<string>) {
    && (st.current.None? ==> Close(MainRun(st, lines)) == st.sections + MainBlocks(lines))
    && (st.current.Some? ==>
          Close(MainRun(st, lines)) ==
            st.sections + [Extend(st.current.value, lines[..SectionRun(lines)])]
            + MainBlocks(lines[SectionRun(lines)..]))
  }

  /** The inductive step of `MainRunBlocks` on a blank or body line. */
  lemma MainBodyLine(st: MainState, lines: seq<string>)
    requires |lines| > 0 && !IsHeading(lines[0])
    requires RunReads(MainStep(st, lines[0]), lines[1..])
    ensures st.current.None? ==> Close(MainRun(st, lines)) == st.sections + MainBlocks(lines)
    ensures st.current.Some? ==>
              Close(MainRun(st, lines)) ==
                st.sections + [Extend(st.current.value, lines[..SectionRun(lines)])]
                + MainBlocks(lines[SectionRun(lines)..])
  {
    var l := lines[0];
    var m := SectionRun(lines[1..]);
    if st.current.Some? {
      var sec := st.current.value;
      BodySlices(lines, m);
      assert SectionRun(lines) == 1 + m;
      assert MainRun(st, lines) == MainRun(MainStep(st, l), lines[1..]);
      if l == "" {
        ExtendBlank(sec, lines[1..][..m]);
      } else {
        ExtendCons(sec, l, lines[1..][..m]);
      }
    } else {
      assert MainRun(st, lines) == MainRun(MainStep(st, l), lines[1..]);
      assert MainBlocks(lines) == MainBlocks(lines[1..]);
    }
  }

  lemma BodySlices<T>(lines: seq<T>, m: nat)
    requires m < |lines|
    ensures lines[1..][m..] == lines[1 + m..]
    ensures lines[..1 + m] == [lines[0]] + lines[1..][..m]
  {
  }

  // Properties of the section reading.

  /** The heading lines, in order. */
  function Headings(lines: seq<string>): (r: seq<string>)
    ensures |r| <= |lines|
  {
    if |lines| == 0 then [] else (if IsHeading(lines[0]) then [lines[0]] else []) + Headings(lines[1..])
  }

  function Titles(sections: seq<Section>): (r: seq<string>)
    ensures |r| == |sections|
    ensures forall i :: 0 <= i < |r| ==> r[i] == sections[i].title
  {
    if |sections| == 0 then [] else [sections[0].title] + Titles(sections[1..])
  }

  /** Lines that are not headings add no heading. */
  lemma {:induction false} HeadingsSkip(lines: seq<string>, n: nat)
    requires n <= |lines|
    requires forall i :: 0 <= i < n ==> !IsHeading(lines[i])
    ensures Headings(lines[n..]) == Headings(lines)
    decreases n
  {
    if n > 0 {
      HeadingsSkip(lines[1..], n - 1);
      assert lines[1..][n - 1..] == lines[n..];
    }
  }

  /** One section per heading line, titled by it, in input order. */
  lemma {:induction false} MainBlocksTitles(lines: seq<string>)
    ensures Titles(MainBlocks(lines)) == Headings(lines)
    decreases |lines|
  {
    if |lines| > 0 {
      if !IsHeading(lines[0]) {
        MainBlocksTitles(lines[1..]);
      } else {
        var n := SectionRun(lines[1..]);
        var first := Section(lines[0], Contents(lines[1..][..n]), LastMarkerKind(lines[1..][..n], Plain));
        var rest := MainBlocks(lines[1..][n..]);
        MainBlocksTitles(lines[1..][n..]);
        HeadingsSkip(lines[1..], n);
        assert ([first] + rest)[1..] == rest;
      }
    }
  }

  /** The number of sections is the number of heading lines, and the titles are
      those lines, stripped, in order. */
  lemma ParseMainTitles(text: string)
    ensures Titles(ParseMain(text)) == Headings(StripAll(LinesOf(text)))
    ensures |ParseMain(text)| == |Headings(StripAll(LinesOf(text)))|
  {
    MainBlocksTitles(StripAll(LinesOf(text)));
  }
}
