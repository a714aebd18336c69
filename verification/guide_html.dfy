/**
 The two HTML serialisers of the guide update script. `generate_main_content_html`
 writes each section as a card with an `<h2>` title and its items as `<li>` lines
 of an ordered list (steps), an unordered list (bullets) or as `<p>` lines;
 `generate_faq_html` writes a fixed wrapper and heading, one `<details>` block
 per question, and a closing `</div>`. Both join their lines with `"\n"`.
 */
module GuideHtml {
  import opened Text
  import opened GuideText

  // ---------------------------------------------------------------------------
  // Line prefixes, used to count the lines of each kind.

  const H2Prefix: string := "      <h2"
  const LiPrefix: string := "        <li>"
  const PPrefix: string := "      <p>"
  const DetailsPrefix: string := "  <details"
  const TitleOpen: string := H2Prefix + " class=\"guide__section-title\">"

  /** The kinds of line counted. */
  datatype Tag = H2 | Li | P | Details

  function PrefixOf(t: Tag): string {
    match t
    case H2 => H2Prefix
    case Li => LiPrefix
    case P => PPrefix
    case Details => DetailsPrefix
  }

  predicate HasTag(line: string, t: Tag) {
    StartsWith(line, PrefixOf(t))
  }

  /** The number of lines of kind `t`. */
  function Count(lines: seq<string>, t: Tag): (n: nat)
    ensures n <= |lines|
  {
    if |lines| == 0 then 0 else (if HasTag(lines[0], t) then 1 else 0) + Count(lines[1..], t)
  }

  lemma {:induction false} CountAppend(a: seq<string>, b: seq<string>, t: Tag)
    ensures Count(a + b, t) == Count(a, t) + Count(b, t)
    decreases |a|
  {
    if |a| > 0 {
      assert (a + b)[0] == a[0];
      assert (a + b)[1..] == a[1..] + b;
      CountAppend(a[1..], b, t);
    } else {
      assert a + b == b;
    }
  }

  /** A line differing from a prefix at some position inside both does not start
      with it. */
  lemma DiffersAt(line: string, t: Tag, i: nat)
    requires i < |PrefixOf(t)| && i < |line| && line[i] != PrefixOf(t)[i]
    ensures !HasTag(line, t)
  {
  }

  // ---------------------------------------------------------------------------
  // generate_main_content_html. The fixed lines are written as a short head,
  // which decides their kind, followed by the rest of the literal.

  const SectionOpen: string := "  <div" + " class=\"guide__section animation-ready fade-in\">"
  const CardOpen: string := "    <div" + " class=\"guide__card\">"
  const StepsOpen: string := "      <ol" + " class=\"guide__steps\">"
  const StepsClose: string := "      </ol>"
  const BulletsOpen: string := "      <ul" + " class=\"guide__bullets\">"
  const BulletsClose: string := "      </ul>"
  const CardClose: string := "    </div>"
  const SectionClose: string := "  </div>"

  function TitleLine(title: string): string {
    TitleOpen + title + "</h2>"
  }

  function StepLine(item: string): string {
    LiPrefix + item + "</li>"
  }

  function ParagraphLine(para: string): string {
    PPrefix + para + "</p>"
  }

  /** A bullet whose first `:` comes before position 30 has the text before it in
      bold, the colon inside the bold. */
  function BulletLine(item: string): string {
    var k := IndexOf(item, ':');
    if k < |item| && k < 30 then BoldLine(item[..k], item[k + 1..])
    else StepLine(item)
  }

  /** A list item with `head:` in bold followed by `rest`. */
  function BoldLine(head: string, rest: string): string {
    LiPrefix + "<strong>" + head + ":</strong>" + rest + "</li>"
  }

  /** The line of one content item of a section of kind `k`. */
  function ItemLine(k: Kind, item: string): string {
    match k
    case Steps => StepLine(item)
    case Bullets => BulletLine(item)
    case Plain => ParagraphLine(item)
  }

  function ItemLines(k: Kind, items: seq<string>): (r: seq<string>)
    ensures |r| == |items|
    ensures forall i :: 0 <= i < |items| ==> r[i] == ItemLine(k, items[i])
  {
    if |items| == 0 then [] else [ItemLine(k, items[0])] + ItemLines(k, items[1..])
  }

  /** The list opening tag of a section of kind `k`: `<ol>` for steps, `<ul>` for
      bullets, none for plain paragraphs. */
  function Opening(k: Kind): (r: seq<string>)
    ensures |r| == if k == Plain then 0 else 1
  {
    match k
    case Steps => [StepsOpen]
    case Bullets => [BulletsOpen]
    case Plain => []
  }

  function Closing(k: Kind): (r: seq<string>)
    ensures |r| == if k == Plain then 0 else 1
  {
    match k
    case Steps => [StepsClose]
    case Bullets => [BulletsClose]
    case Plain => []
  }

  /** The lines between a section's title and its closing tags. */
  function BodyLines(sec: Section): seq<string> {
    Opening(sec.kind) + ItemLines(sec.kind, sec.content) + Closing(sec.kind)
  }

  function SectionLines(sec: Section): seq<string> {
    [SectionOpen, CardOpen, TitleLine(sec.title)] + BodyLines(sec) + [CardClose, SectionClose]
  }

  function MainHtmlLines(sections: seq<Section>): seq<string> {
    if |sections| == 0 then [] else SectionLines(sections[0]) + MainHtmlLines(sections[1..])
  }

  /** `generate_main_content_html(sections)`: each section rendered on its own,
      and the renderings joined by newlines, in order. */
  function GenerateMainHtml(sections: seq<Section>): (r: string)
    ensures r == Join(SectionHtmls(sections), "\n")
  {
    MainHtmlBySection(sections);
    Join(MainHtmlLines(sections), "\n")
  }

  /** One section's HTML: its lines joined by newlines. */
  function SectionHtml(sec: Section): string {
    Join(SectionLines(sec), "\n")
  }

  function SectionHtmls(sections: seq<Section>): (r: seq<string>)
    ensures |r| == |sections|
    ensures forall i :: 0 <= i < |sections| ==> r[i] == SectionHtml(sections[i])
  {
    if |sections| == 0 then [] else [SectionHtml(sections[0])] + SectionHtmls(sections[1..])
  }

  /** The line list of several sections joins to the per-section renderings
      joined by newlines. */
  lemma {:induction false} MainHtmlBySection(sections: seq<Section>)
    ensures Join(MainHtmlLines(sections), "\n") == Join(SectionHtmls(sections), "\n")
    decreases |sections|
  {
    if |sections| > 1 {
      var rest := sections[1..];
      MainHtmlBySection(rest);
      MainHtmlLinesNonEmpty(rest);
      JoinAppend(SectionLines(sections[0]), MainHtmlLines(rest), "\n");
      JoinAppend([SectionHtml(sections[0])], SectionHtmls(rest), "\n");
    } else if |sections| == 1 {
      assert MainHtmlLines(sections) == SectionLines(sections[0]) + [];
      assert SectionLines(sections[0]) + [] == SectionLines(sections[0]);
    }
  }

  lemma MainHtmlLinesNonEmpty(sections: seq<Section>)
    requires |sections| > 0
    ensures |MainHtmlLines(sections)| > 0
  {
  }

  // What the lines of a section are.

  /** A section is its title line, its items one per line and in order (wrapped
      in `<ol>` or `<ul>` for steps and bullets), and four fixed lines. */
  lemma SectionShape(sec: Section)
    ensures var lines := SectionLines(sec);
            var wrap := if sec.kind == Plain then 0 else 1;
            && |lines| == 5 + |sec.content| + 2 * wrap
            && lines[0] == SectionOpen && lines[1] == CardOpen && lines[2] == TitleLine(sec.title)
            && lines[|lines| - 2] == CardClose && lines[|lines| - 1] == SectionClose
            && (forall i :: 0 <= i < |sec.content| ==> lines[3 + wrap + i] == ItemLine(sec.kind, sec.content[i]))
    ensures var lines := SectionLines(sec);
            sec.kind == Steps ==> lines[3] == StepsOpen && lines[|lines| - 3] == StepsClose
    ensures var lines := SectionLines(sec);
            sec.kind == Bullets ==> lines[3] == BulletsOpen && lines[|lines| - 3] == BulletsClose
  {
    SectionFrame(sec);
    BodyShape(sec);
    SectionItems(sec);
    SectionWrappers(sec);
  }

  /** Item `i` of a section sits on line `3 + i`, after the wrapper if any. */
  lemma SectionItems(sec: Section)
    ensures var wrap := if sec.kind == Plain then 0 else 1;
            forall i :: 0 <= i < |sec.content| ==>
              SectionLines(sec)[3 + wrap + i] == ItemLine(sec.kind, sec.content[i])
  {
    var lines := SectionLines(sec);
    var body := BodyLines(sec);
    var wrap := if sec.kind == Plain then 0 else 1;
    SectionFrame(sec);
    BodyShape(sec);
    forall i | 0 <= i < |sec.content|
      ensures lines[3 + wrap + i] == ItemLine(sec.kind, sec.content[i])
    {
      assert lines[3 + (wrap + i)] == body[wrap + i];
    }
  }

  /** The list wrapper of a section sits right after the title and right before the
      card's closing lines. */
  lemma SectionWrappers(sec: Section)
    ensures var lines := SectionLines(sec);
            sec.kind == Steps ==> lines[3] == StepsOpen && lines[|lines| - 3] == StepsClose
    ensures var lines := SectionLines(sec);
            sec.kind == Bullets ==> lines[3] == BulletsOpen && lines[|lines| - 3] == BulletsClose
  {
    var lines := SectionLines(sec);
    var body := BodyLines(sec);
    SectionFrame(sec);
    BodyShape(sec);
    BodyWrappers(sec);
    if sec.kind != Plain {
      assert lines[3] == body[0];
      assert lines[|lines| - 3] == body[|body| - 1];
    }
  }

  /** A section is the three opening lines, its body, and the two closing lines. */
  lemma SectionFrame(sec: Section)
    ensures var lines := SectionLines(sec);
            var body := BodyLines(sec);
            && |lines| == 5 + |body|
            && lines[0] == SectionOpen && lines[1] == CardOpen && lines[2] == TitleLine(sec.title)
            && lines[|lines| - 2] == CardClose && lines[|lines| - 1] == SectionClose
            && forall j :: 0 <= j < |body| ==> lines[3 + j] == body[j]
  {
    var head := [SectionOpen, CardOpen, TitleLine(sec.title)];
    var tail := [CardClose, SectionClose];
    var body := BodyLines(sec);
    assert SectionLines(sec) == head + body + tail;
    Framed(head, body, tail);
  }

  /** The body is the items one per line, inside the list tags when there are any. */
  lemma BodyShape(sec: Section)
    ensures var wrap := if sec.kind == Plain then 0 else 1;
            && |BodyLines(sec)| == |sec.content| + 2 * wrap
            && forall i :: 0 <= i < |sec.content| ==> BodyLines(sec)[wrap + i] == ItemLine(sec.kind, sec.content[i])
  {
    var items := ItemLines(sec.kind, sec.content);
    var open := Opening(sec.kind);
    var body := BodyLines(sec);
    assert body == open + items + Closing(sec.kind);
    Framed(open, items, Closing(sec.kind));
    forall i | 0 <= i < |sec.content|
      ensures body[|open| + i] == ItemLine(sec.kind, sec.content[i])
    {
      assert body[|open| + i] == items[i];
    }
  }

  /** A list body starts with its opening tag and ends with the matching closing tag. */
  lemma BodyWrappers(sec: Section)
    ensures sec.kind == Steps ==>
              BodyLines(sec)[0] == StepsOpen && BodyLines(sec)[|BodyLines(sec)| - 1] == StepsClose
    ensures sec.kind == Bullets ==>
              BodyLines(sec)[0] == BulletsOpen && BodyLines(sec)[|BodyLines(sec)| - 1] == BulletsClose
  {
    var items := ItemLines(sec.kind, sec.content);
    assert BodyLines(sec) == Opening(sec.kind) + items + Closing(sec.kind);
  }

  /** Where the parts of a three-part concatenation sit. */
  lemma Framed<T>(a: seq<T>, m: seq<T>, b: seq<T>)
    ensures |a + m + b| == |a| + |m| + |b|
    ensures forall i :: 0 <= i < |a| ==> (a + m + b)[i] == a[i]
    ensures forall i :: 0 <= i < |m| ==> (a + m + b)[|a| + i] == m[i]
    ensures forall i :: 0 <= i < |b| ==> (a + m + b)[|a| + |m| + i] == b[i]
  {
  }

  /** `item` is `head:rest` with no colon in `head`, which is under 30 characters
      long, and the bullet line shows `head:` in bold followed by `rest`. */
  predicate BoldSplit(item: string, head: string, rest: string) {
    && item == head + ":" + rest && ':' !in head && |head| < 30
    && BulletLine(item) == BoldLine(head, rest)
  }

  /** The bold split happens at the first colon: the bold part holds no colon,
      and the two parts with the colon between them give the item back. */
  lemma BulletSplitsAtFirstColon(item: string)
    requires ':' in item && IndexOf(item, ':') < 30
    ensures exists head, rest :: BoldSplit(item, head, rest)
  {
    var k := IndexOf(item, ':');
    BoldSplitAt(item, k);
  }

  lemma BoldSplitAt(item: string, k: nat)
    requires k == IndexOf(item, ':') && k < |item| && k < 30
    ensures BoldSplit(item, item[..k], item[k + 1..])
  {
    SplitAround(item, k);
    NoColonBefore(item, k);
    assert BulletLine(item) == BoldLine(item[..k], item[k + 1..]);
  }

  lemma SplitAround(item: string, k: nat)
    requires k < |item| && item[k] == ':'
    ensures item == item[..k] + ":" + item[k + 1..]
  {
  }

  lemma NoColonBefore(item: string, k: nat)
    requires k == IndexOf(item, ':')
    ensures ':' !in item[..k]
  {
    assert forall i :: 0 <= i < k ==> item[..k][i] == item[i];
  }

  /** A bullet without a colon in its first 30 characters is written as is. */
  lemma BulletWithoutEarlyColon(item: string)
    requires forall i :: 0 <= i < |item| && i < 30 ==> item[i] != ':'
    ensures BulletLine(item) == StepLine(item)
  {
  }

  // Counting the lines of each kind.

  /** A line of kind `t0` and of no other kind. */
  predicate OnlyTag(line: string, t0: Tag) {
    forall t :: HasTag(line, t) <==> t == t0
  }

  /** A line of none of the counted kinds. */
  predicate NoTag(line: string) {
    forall t :: !HasTag(line, t)
  }

  lemma StartsWithPrefix(p: string, rest: string, t: Tag)
    requires PrefixOf(t) == p
    ensures HasTag(p + rest, t)
  {
    assert (p + rest)[..|p|] == p;
  }

  /** Any line that starts with the list-item prefix is a list item only. */
  lemma LiLineTag(rest: string)
    ensures OnlyTag(LiPrefix + rest, Li)
  {
    var line := LiPrefix + rest;
    StartsWithPrefix(LiPrefix, rest, Li);
    DiffersAt(line, H2, 6);
    DiffersAt(line, P, 6);
    DiffersAt(line, Details, 2);
  }

  lemma StepLineTag(item: string)
    ensures OnlyTag(StepLine(item), Li)
  {
    assert StepLine(item) == LiPrefix + (item + "</li>");
    LiLineTag(item + "</li>");
  }

  lemma BulletLineTag(item: string)
    ensures OnlyTag(BulletLine(item), Li)
  {
    var k := IndexOf(item, ':');
    if k < |item| && k < 30 {
      var rest := "<strong>" + item[..k] + ":</strong>" + item[k + 1..] + "</li>";
      assert BulletLine(item) == LiPrefix + rest;
      LiLineTag(rest);
    } else {
      StepLineTag(item);
    }
  }

  lemma ParagraphLineTag(para: string)
    ensures OnlyTag(ParagraphLine(para), P)
  {
    var line := ParagraphLine(para);
    assert line == PPrefix + (para + "</p>");
    StartsWithPrefix(PPrefix, para + "</p>", P);
    DiffersAt(line, H2, 7);
    DiffersAt(line, Li, 6);
    DiffersAt(line, Details, 2);
  }

  lemma TitleLineTag(title: string)
    ensures OnlyTag(TitleLine(title), H2)
  {
    var line := TitleLine(title);
    var rest := " class=\"guide__section-title\">" + title + "</h2>";
    assert line == H2Prefix + rest;
    StartsWithPrefix(H2Prefix, rest, H2);
    DiffersAt(line, P, 7);
    DiffersAt(line, Li, 6);
    DiffersAt(line, Details, 2);
  }

  /** The tag an item line of a section of kind `k` carries. */
  function ItemTag(k: Kind): Tag {
    if k == Plain then P else Li
  }

  lemma ItemLinesTag(k: Kind, items: seq<string>)
    ensures forall i :: 0 <= i < |items| ==> OnlyTag(ItemLines(k, items)[i], ItemTag(k))
  {
    forall i | 0 <= i < |items| ensures OnlyTag(ItemLines(k, items)[i], ItemTag(k)) {
      match k
      case Steps => StepLineTag(items[i]);
      case Bullets => BulletLineTag(items[i]);
      case Plain => ParagraphLineTag(items[i]);
    }
  }

  /** A line whose head has a different character from every prefix at some
      position is of no kind. */
  lemma UntaggedHead(head: string, rest: string, h2: nat, li: nat, p: nat, details: nat)
    requires h2 < |H2Prefix| && h2 < |head| && head[h2] != H2Prefix[h2]
    requires li < |LiPrefix| && li < |head| && head[li] != LiPrefix[li]
    requires p < |PPrefix| && p < |head| && head[p] != PPrefix[p]
    requires details < |DetailsPrefix| && details < |head| && head[details] != DetailsPrefix[details]
    ensures NoTag(head + rest)
  {
    var line := head + rest;
    DiffersAt(line, H2, h2);
    DiffersAt(line, Li, li);
    DiffersAt(line, P, p);
    DiffersAt(line, Details, details);
  }

  /** The fixed lines of a section are of no counted kind. */
  lemma FixedLinesUntagged()
    ensures NoTag(SectionOpen) && NoTag(CardOpen) && NoTag(CardClose) && NoTag(SectionClose)
    ensures NoTag(StepsOpen) && NoTag(StepsClose) && NoTag(BulletsOpen) && NoTag(BulletsClose)
  {
    UntaggedHead("  <div", " class=\"guide__section animation-ready fade-in\">", 2, 2, 2, 4);
    UntaggedHead("    <div", " class=\"guide__card\">", 4, 4, 4, 2);
    UntaggedHead("    </div>", "", 4, 4, 4, 2);
    UntaggedHead("  </div>", "", 2, 2, 2, 3);
    UntaggedHead("      <ol", " class=\"guide__steps\">", 7, 6, 7, 2);
    UntaggedHead("      </ol>", "", 7, 6, 7, 2);
    UntaggedHead("      <ul", " class=\"guide__bullets\">", 7, 6, 7, 2);
    UntaggedHead("      </ul>", "", 7, 6, 7, 2);
    assert "    </div>" + "" == CardClose;
    assert "  </div>" + "" == SectionClose;
    assert "      </ol>" + "" == StepsClose;
    assert "      </ul>" + "" == BulletsClose;
  }

  lemma WrapUntagged(k: Kind)
    ensures forall i :: 0 <= i < |Opening(k)| ==> NoTag(Opening(k)[i])
    ensures forall i :: 0 <= i < |Closing(k)| ==> NoTag(Closing(k)[i])
  {
    FixedLinesUntagged();
  }

  /** Lines all of one kind count fully for it and not at all for the others. */
  lemma {:induction false} CountOnly(lines: seq<string>, t0: Tag, t: Tag)
    requires forall i :: 0 <= i < |lines| ==> OnlyTag(lines[i], t0)
    ensures Count(lines, t) == if t == t0 then |lines| else 0
    decreases |lines|
  {
    if |lines| > 0 {
      assert OnlyTag(lines[0], t0);
      CountOnly(lines[1..], t0, t);
    }
  }

  lemma {:induction false} CountNone(lines: seq<string>, t: Tag)
    requires forall i :: 0 <= i < |lines| ==> NoTag(lines[i])
    ensures Count(lines, t) == 0
    decreases |lines|
  {
    if |lines| > 0 {
      assert NoTag(lines[0]);
      CountNone(lines[1..], t);
    }
  }

  /** How many lines of kind `t` a section has: one `<h2>`, one `<li>` per item of
      a steps or bullets section, one `<p>` per item of a plain one. */
  function SectionTagCount(sec: Section, t: Tag): nat {
    match t
    case H2 => 1
    case Li => if sec.kind == Plain then 0 else |sec.content|
    case P => if sec.kind == Plain then |sec.content| else 0
    case Details => 0
  }

  /** Counting the lines of a section: head, title, body, tail. */
  lemma CountSectionParts(head: seq<string>, title: string, open: seq<string>, items: seq<string>,
                          close: seq<string>, tail: seq<string>, k: Kind, t: Tag)
    requires forall i :: 0 <= i < |head| ==> NoTag(head[i])
    requires forall i :: 0 <= i < |open| ==> NoTag(open[i])
    requires forall i :: 0 <= i < |close| ==> NoTag(close[i])
    requires forall i :: 0 <= i < |tail| ==> NoTag(tail[i])
    requires OnlyTag(title, H2)
    requires forall i :: 0 <= i < |items| ==> OnlyTag(items[i], ItemTag(k))
    ensures Count(head + [title] + (open + items + close) + tail, t)
              == (if t == H2 then 1 else 0) + (if t == ItemTag(k) then |items| else 0)
  {
    CountAppend(head + [title] + (open + items + close), tail, t);
    CountAppend(head + [title], open + items + close, t);
    CountAppend(head, [title], t);
    CountAppend(open + items, close, t);
    CountAppend(open, items, t);
    CountNone(head, t);
    CountNone(open, t);
    CountNone(close, t);
    CountNone(tail, t);
    CountOnly([title], H2, t);
    CountOnly(items, ItemTag(k), t);
  }

  /** Every section has exactly one `<h2>` line, and one `<li>` or `<p>` line per
      item according to its kind; no section line opens a `<details>`. */
  lemma SectionCounts(sec: Section, t: Tag)
    ensures Count(SectionLines(sec), t) == SectionTagCount(sec, t)
  {
    var items := ItemLines(sec.kind, sec.content);
    var head := [SectionOpen, CardOpen];
    var tail := [CardClose, SectionClose];
    var open, close := Opening(sec.kind), Closing(sec.kind);
    assert SectionLines(sec) == head + [TitleLine(sec.title)] + (open + items + close) + tail;
    FixedLinesUntagged();
    WrapUntagged(sec.kind);
    TitleLineTag(sec.title);
    ItemLinesTag(sec.kind, sec.content);
    CountSectionParts(head, TitleLine(sec.title), open, items, close, tail, sec.kind, t);
  }

  /** The number of lines of kind `t` over all sections. */
  function TagTotal(sections: seq<Section>, t: Tag): nat {
    if |sections| == 0 then 0 else SectionTagCount(sections[0], t) + TagTotal(sections[1..], t)
  }

  /** The main content has one `<h2>` per section, and as many `<li>` and `<p>`
      lines as the sections have listed and plain items. */
  lemma {:induction false} MainHtmlCounts(sections: seq<Section>, t: Tag)
    ensures Count(MainHtmlLines(sections), t) == TagTotal(sections, t)
    decreases |sections|
  {
    if |sections| > 0 {
      CountAppend(SectionLines(sections[0]), MainHtmlLines(sections[1..]), t);
      SectionCounts(sections[0], t);
      MainHtmlCounts(sections[1..], t);
    }
  }

  lemma {:induction false} TagTotalH2(sections: seq<Section>)
    ensures TagTotal(sections, H2) == |sections|
    decreases |sections|
  {
    if |sections| > 0 {
      TagTotalH2(sections[1..]);
    }
  }

  /** One `<h2>` per section. */
  lemma MainHtmlOneTitlePerSection(sections: seq<Section>)
    ensures Count(MainHtmlLines(sections), H2) == |sections|
    ensures Count(MainHtmlLines(sections), Details) == 0
  {
    MainHtmlCounts(sections, H2);
    TagTotalH2(sections);
    MainHtmlCounts(sections, Details);
    TagTotalDetails(sections);
  }

  lemma {:induction false} TagTotalDetails(sections: seq<Section>)
    ensures TagTotal(sections, Details) == 0
    decreases |sections|
  {
    if |sections| > 0 {
      TagTotalDetails(sections[1..]);
    }
  }

  // ---------------------------------------------------------------------------
  // generate_faq_html.

  const FaqOpen: string := "<div" + " class=\"guide__faq-section guide__faq-section--spacious\">"
  const FaqHeading: string := "  <h2" + " class=\"guide__section-title\">Common questions</h2>"
  const DetailsOpen: string := DetailsPrefix + " class=\"guide__faq\" role=\"group\">"
  const SummaryOpen: string := "    <summary" + " class=\"guide__faq__summary\">"
  const QuestionOpen: string := "      <span" + " class=\"h6 mb-0 d-inline-block\">"
  const SummaryClose: string := "    </summary>"
  const AnswerOpen: string := "    <div" + " class=\"guide__faq__content\">"
  const AnswerIndent: string := "      "
  const AnswerClose: string := "    </div>"
  const DetailsClose: string := "  </details>"
  const FaqClose: string := "</div>"

  /** The eight lines of one question: a `<details>` block whose summary holds
      the question and whose content holds the answer. */
  function DetailsBlock(item: FaqItem): seq<string> {
    [DetailsOpen, SummaryOpen, QuestionOpen + item.question + "</span>", SummaryClose,
     AnswerOpen, AnswerIndent + item.answer, AnswerClose, DetailsClose]
  }

  function DetailsBlocks(items: seq<FaqItem>): seq<string> {
    if |items| == 0 then [] else DetailsBlock(items[0]) + DetailsBlocks(items[1..])
  }

  function FaqHtmlLines(items: seq<FaqItem>): seq<string> {
    [FaqOpen, FaqHeading] + DetailsBlocks(items) + [FaqClose]
  }

  /** `generate_faq_html(faq_items)`: the wrapper and heading lines, then each
      question's block rendered on its own and followed by a newline, in order,
      then the closing `</div>`. */
  function GenerateFaqHtml(items: seq<FaqItem>): (r: string)
    ensures r == FaqOpen + "\n" + FaqHeading + "\n" + BlocksHtml(items) + FaqClose
  {
    FaqHtmlByItem(items);
    Join(FaqHtmlLines(items), "\n")
  }

  /** Each item's block joined by newlines, every block followed by a newline. */
  function BlocksHtml(items: seq<FaqItem>): string {
    if |items| == 0 then "" else Join(DetailsBlock(items[0]), "\n") + "\n" + BlocksHtml(items[1..])
  }

  /** The blocks of `items` ahead of a non-empty tail join to the per-item
      renderings followed by the tail's join. */
  lemma {:induction false} DetailsBlocksHtml(items: seq<FaqItem>, tail: seq<string>)
    requires |tail| > 0
    ensures Join(DetailsBlocks(items) + tail, "\n") == BlocksHtml(items) + Join(tail, "\n")
    decreases |items|
  {
    if |items| == 0 {
      assert DetailsBlocks(items) + tail == tail;
    } else {
      var b := DetailsBlock(items[0]);
      var rest := DetailsBlocks(items[1..]);
      assert DetailsBlocks(items) + tail == b + (rest + tail);
      JoinAppend(b, rest + tail, "\n");
      DetailsBlocksHtml(items[1..], tail);
    }
  }

  lemma FaqHtmlByItem(items: seq<FaqItem>)
    ensures Join(FaqHtmlLines(items), "\n") == FaqOpen + "\n" + FaqHeading + "\n" + BlocksHtml(items) + FaqClose
  {
    var head := [FaqOpen, FaqHeading];
    var tail := DetailsBlocks(items) + [FaqClose];
    assert FaqHtmlLines(items) == head + tail;
    JoinAppend(head, tail, "\n");
    assert head[1..] == [FaqHeading];
    assert Join(head, "\n") == FaqOpen + "\n" + FaqHeading;
    DetailsBlocksHtml(items, [FaqClose]);
  }

  /** Block `k` of the output is the block of item `k`, in order. */
  lemma {:induction false} DetailsBlocksShape(items: seq<FaqItem>)
    ensures |DetailsBlocks(items)| == 8 * |items|
    ensures forall k, j :: 0 <= k < |items| && 0 <= j < 8 ==>
              DetailsBlocks(items)[8 * k + j] == DetailsBlock(items[k])[j]
    decreases |items|
  {
    if |items| > 0 {
      var b := DetailsBlock(items[0]);
      var rest := DetailsBlocks(items[1..]);
      DetailsBlocksShape(items[1..]);
      forall k, j | 0 <= k < |items| && 0 <= j < 8
        ensures DetailsBlocks(items)[8 * k + j] == DetailsBlock(items[k])[j]
      {
        if k > 0 {
          assert items[k] == items[1..][k - 1];
          assert 8 * k + j == 8 + (8 * (k - 1) + j);
        }
      }
    }
  }

  /** The FAQ is its two heading lines, one block per item in order, and the
      closing `</div>`; the question and the answer of item `k` sit on lines
      `4 + 8k` and `7 + 8k`. */
  lemma FaqHtmlShape(items: seq<FaqItem>)
    ensures var lines := FaqHtmlLines(items);
            && |lines| == 3 + 8 * |items|
            && lines[0] == FaqOpen && lines[1] == FaqHeading && lines[|lines| - 1] == FaqClose
            && (forall k :: 0 <= k < |items| ==>
                  && lines[2 + 8 * k] == DetailsOpen
                  && lines[4 + 8 * k] == QuestionOpen + items[k].question + "</span>"
                  && lines[7 + 8 * k] == AnswerIndent + items[k].answer)
  {
    DetailsBlocksShape(items);
    Framed([FaqOpen, FaqHeading], DetailsBlocks(items), [FaqClose]);
    forall k | 0 <= k < |items|
      ensures FaqHtmlLines(items)[2 + 8 * k] == DetailsOpen
      ensures FaqHtmlLines(items)[4 + 8 * k] == QuestionOpen + items[k].question + "</span>"
      ensures FaqHtmlLines(items)[7 + 8 * k] == AnswerIndent + items[k].answer
    {
      assert DetailsBlocks(items)[8 * k + 0] == DetailsBlock(items[k])[0];
      assert DetailsBlocks(items)[8 * k + 2] == DetailsBlock(items[k])[2];
      assert DetailsBlocks(items)[8 * k + 5] == DetailsBlock(items[k])[5];
    }
  }

  /** Lines `2 + 8k` to `9 + 8k` of the FAQ are exactly the eight-line block of
      item `k`. */
  lemma FaqHtmlBlocks(items: seq<FaqItem>)
    ensures |FaqHtmlLines(items)| == 3 + 8 * |items|
    ensures forall k :: 0 <= k < |items| ==>
              FaqHtmlLines(items)[2 + 8 * k..10 + 8 * k] == DetailsBlock(items[k])
  {
    var lines := FaqHtmlLines(items);
    DetailsBlocksShape(items);
    Framed([FaqOpen, FaqHeading], DetailsBlocks(items), [FaqClose]);
    forall k | 0 <= k < |items|
      ensures lines[2 + 8 * k..10 + 8 * k] == DetailsBlock(items[k])
    {
      var block := lines[2 + 8 * k..10 + 8 * k];
      forall j | 0 <= j < 8 ensures block[j] == DetailsBlock(items[k])[j] {
        assert block[j] == DetailsBlocks(items)[8 * k + j];
      }
    }
  }

  /** Lines of which none is of kind `t`. */
  lemma {:induction false} CountZero(lines: seq<string>, t: Tag)
    requires forall i :: 0 <= i < |lines| ==> !HasTag(lines[i], t)
    ensures Count(lines, t) == 0
    decreases |lines|
  {
    if |lines| > 0 {
      assert !HasTag(lines[0], t);
      CountZero(lines[1..], t);
    }
  }

  /** Only the first line of a block opens a `<details>`, whatever the question
      and the answer hold. */
  lemma DetailsBlockCount(item: FaqItem)
    ensures Count(DetailsBlock(item), Details) == 1
  {
    var b := DetailsBlock(item);
    StartsWithPrefix(DetailsPrefix, " class=\"guide__faq\" role=\"group\">", Details);
    DiffersAt(b[1], Details, 2);
    DiffersAt(b[2], Details, 2);
    DiffersAt(b[3], Details, 2);
    DiffersAt(b[4], Details, 2);
    DiffersAt(b[5], Details, 2);
    DiffersAt(b[6], Details, 2);
    DiffersAt(b[7], Details, 3);
    CountAppend([b[0]], b[1..], Details);
    CountZero(b[1..], Details);
    assert b == [b[0]] + b[1..];
  }

  lemma {:induction false} DetailsBlocksCount(items: seq<FaqItem>)
    ensures Count(DetailsBlocks(items), Details) == |items|
    decreases |items|
  {
    if |items| > 0 {
      CountAppend(DetailsBlock(items[0]), DetailsBlocks(items[1..]), Details);
      DetailsBlockCount(items[0]);
      DetailsBlocksCount(items[1..]);
    }
  }

  /** The FAQ opens exactly one `<details>` per question. */
  lemma FaqDetailsCount(items: seq<FaqItem>)
    ensures Count(FaqHtmlLines(items), Details) == |items|
  {
    var head := [FaqOpen, FaqHeading];
    DiffersAt(FaqOpen, Details, 0);
    DiffersAt(FaqHeading, Details, 3);
    DiffersAt(FaqClose, Details, 0);
    CountZero(head, Details);
    CountZero([FaqClose], Details);
    DetailsBlocksCount(items);
    CountAppend(head + DetailsBlocks(items), [FaqClose], Details);
    CountAppend(head, DetailsBlocks(items), Details);
  }
}
