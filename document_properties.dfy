/** What the whole document promises: how it starts and ends, where the
    subject and the width go, and the order of its fragments. */
module DocumentProperties {
  import opened Wrappers
  import opened Text
  import opened Markup
  import opened Newsletter
  import opened LayerProperties

  /** The document starts with the doctype line and ends with the closing html tag. */
  lemma DocumentFraming(n: NewsletterConfig)
    ensures "<!DOCTYPE html>" <= Document(n)
    ensures var d := Document(n); |d| >= 7 && d[|d| - 7..] == "</html>"
  {
    DocumentEnds(n);
    JoinedFraming(DocumentLines(n));
  }

  /** The first line is the doctype and the last one closes the html element. */
  lemma DocumentEnds(n: NewsletterConfig)
    ensures |DocumentLines(n)| >= 1
    ensures DocumentLines(n)[0] == Doctype
    ensures DocumentLines(n)[|DocumentLines(n)| - 1] == HtmlClose
  {
    FirstAndLast(DocumentLines(n), Prologue(n), HeaderLines(n.subject, n.header),
                 LayersLines(n.layers, n.textColor), FooterLines(n.footer), Epilogue);
  }

  lemma FirstAndLast(lines: seq<Line>, p: seq<Line>, h: seq<Line>, l: seq<Line>, f: seq<Line>, e: seq<Line>)
    requires lines == p + h + l + f + e
    requires |p| >= 1 && |e| >= 1
    ensures |lines| >= 1 && lines[0] == p[0] && lines[|lines| - 1] == e[|e| - 1]
  {
    var front := p + h + l + f;
    assert |lines| == |front| + |e|;
  }

  lemma JoinedFraming(lines: seq<Line>)
    requires |lines| >= 1 && lines[0] == Doctype && lines[|lines| - 1] == HtmlClose
    ensures "<!DOCTYPE html>" <= Join(RenderAll(lines), "\n")
    ensures var d := Join(RenderAll(lines), "\n"); |d| >= 7 && d[|d| - 7..] == "</html>"
  {
    var k := |lines| - 1;
    assert Render(lines[k]) == "</html>";
    var texts := RenderAll(lines);
    assert texts[0] == Render(Doctype);
    JoinStartsWith(texts, "\n");
    assert |texts| - 1 == k;
    var last := texts[|texts| - 1];
    assert last == "</html>";
    JoinEndsWith(texts, "\n");
    var d := Join(texts, "\n");
    assert d[|d| - |last|..] == last;
  }

  /** The title element holds the subject verbatim. */
  lemma DocumentTitle(n: NewsletterConfig)
    ensures |DocumentLines(n)| > 5 && DocumentLines(n)[5] == TitleTag(n.subject)
  {
    PrologueTitleAndWidth(n);
    PrologueLine(DocumentLines(n), Prologue(n), HeaderLines(n.subject, n.header),
                 LayersLines(n.layers, n.textColor), FooterLines(n.footer), Epilogue, 5);
  }

  /** The inner table has the maximum width (1000 when not given) as its width,
      whatever its value: the width text reads back as that number. */
  lemma DocumentWidth(n: NewsletterConfig)
    ensures |DocumentLines(n)| > 11
    ensures DocumentLines(n)[11] == InnerTable(n.maxWidth.GetOr(DefaultMaxWidth), n.backgroundColor)
    ensures ParseInt(IntToStr(DocumentLines(n)[11].maxWidth)) == n.maxWidth.GetOr(DefaultMaxWidth)
  {
    PrologueTitleAndWidth(n);
    PrologueLine(DocumentLines(n), Prologue(n), HeaderLines(n.subject, n.header),
                 LayersLines(n.layers, n.textColor), FooterLines(n.footer), Epilogue, 11);
    IntToStrRoundTrip(n.maxWidth.GetOr(DefaultMaxWidth));
  }

  lemma PrologueTitleAndWidth(n: NewsletterConfig)
    ensures |Prologue(n)| == 12
    ensures Prologue(n)[5] == TitleTag(n.subject)
    ensures Prologue(n)[11] == InnerTable(n.maxWidth.GetOr(DefaultMaxWidth), n.backgroundColor)
  {
  }

  lemma PrologueLine(lines: seq<Line>, p: seq<Line>, h: seq<Line>, l: seq<Line>, f: seq<Line>, e: seq<Line>, k: nat)
    requires lines == p + h + l + f + e
    requires k < |p|
    ensures k < |lines| && lines[k] == p[k]
  {
  }

  /** The header fragment comes right after the twelve prologue lines. */
  lemma HeaderInPlace(n: NewsletterConfig)
    ensures 12 + |HeaderLines(n.subject, n.header)| <= |DocumentLines(n)|
    ensures DocumentLines(n)[12..12 + |HeaderLines(n.subject, n.header)|] == HeaderLines(n.subject, n.header)
  {
    PartsOfFive(DocumentLines(n), Prologue(n), HeaderLines(n.subject, n.header),
                LayersLines(n.layers, n.textColor), FooterLines(n.footer), Epilogue);
  }

  /** Layer i's fragment sits between the header plus the fragments of the
      layers before it and the fragments of the layers after it plus the
      footer: one fragment per layer, in list order. */
  lemma LayerInPlace(n: NewsletterConfig, i: nat)
    requires i < |n.layers|
    ensures DocumentLines(n)
            == Prologue(n) + HeaderLines(n.subject, n.header) + LayersLines(n.layers[..i], n.textColor)
               + LayerLines(n.layers[i], n.textColor)
               + LayersLines(n.layers[i + 1..], n.textColor) + FooterLines(n.footer) + Epilogue
  {
    var front := Prologue(n) + HeaderLines(n.subject, n.header);
    var b := LayersLines(n.layers[..i], n.textColor);
    var m := LayerLines(n.layers[i], n.textColor);
    var a := LayersLines(n.layers[i + 1..], n.textColor);
    LayerFragmentInPlace(n.layers, i, n.textColor);
    AppendAssoc(front + LayersLines(n.layers, n.textColor), FooterLines(n.footer), Epilogue);
    AppendAssoc(front + b + m + a, FooterLines(n.footer), Epilogue);
    Regroup(Prologue(n) + HeaderLines(n.subject, n.header), LayersLines(n.layers[..i], n.textColor),
            LayerLines(n.layers[i], n.textColor), LayersLines(n.layers[i + 1..], n.textColor),
            FooterLines(n.footer) + Epilogue);
  }

  lemma Regroup(front: seq<Line>, b: seq<Line>, m: seq<Line>, a: seq<Line>, back: seq<Line>)
    ensures front + (b + m + a) + back == front + b + m + a + back
  {
  }

  /** The footer fragment comes right before the six closing lines. */
  lemma FooterBeforeEpilogue(n: NewsletterConfig)
    ensures var lines := DocumentLines(n);
      var footer := FooterLines(n.footer);
      |footer| + 6 <= |lines|
      && lines[|lines| - 6 - |footer|..|lines| - 6] == footer
      && lines[|lines| - 6..] == Epilogue
  {
  }

  /** When no inserted value contains a newline, splitting the document at its
      newlines gives back the text of its lines, one piece per line. */
  lemma DocumentLinesRoundTrip(n: NewsletterConfig)
    requires forall i :: 0 <= i < |DocumentLines(n)| ==> '\n' !in Render(DocumentLines(n)[i])
    ensures Split(Document(n), "\n") == RenderAll(DocumentLines(n))
  {
    var lines := DocumentLines(n);
    assert lines[0] == Doctype;
    LinesRoundTrip(lines);
  }

  lemma LinesRoundTrip(lines: seq<Line>)
    requires |lines| >= 1
    requires forall i :: 0 <= i < |lines| ==> '\n' !in Render(lines[i])
    ensures Split(Join(RenderAll(lines), "\n"), "\n") == RenderAll(lines)
  {
    SplitOfJoin(RenderAll(lines), '\n');
  }
}
