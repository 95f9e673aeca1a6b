/** What the header fragment promises: when each of its rows appears, in which
    order, and what it carries. */
module HeaderProperties {
  import opened Wrappers
  import opened Text
  import opened Markup
  import opened Newsletter

  // ---------------------------------------------------------------------------
  // Which content lines each group of header rows can hold
  // ---------------------------------------------------------------------------

  lemma PreHeaderRowsKinds(h: HeaderConfig)
    ensures forall l :: l in PreHeaderRows(h) ==>
      && (l.PreHeaderSpan? ==> l == PreHeaderSpan(PreHeader(h)))
      && !l.HeaderImage? && !l.SpacerText? && !l.TitleHeading? && !l.HeaderParagraph?
  {
  }

  lemma HeaderImageRowsKinds(subject: string, h: HeaderConfig)
    ensures forall l :: l in HeaderImageRows(subject, h) ==>
      && (l.HeaderImage? ==>
            HeaderImageSource(h).Some?
            && l == HeaderImage(HeaderImageSource(h).value, HeaderTitle(subject, h), h.imageWidth.GetOr(DefaultImageWidth)))
      && !l.PreHeaderSpan? && !l.SpacerText? && !l.TitleHeading? && !l.HeaderParagraph?
  {
  }

  lemma SpacerRowsKinds(h: HeaderConfig)
    ensures forall l :: l in SpacerRows(h) ==>
      !l.PreHeaderSpan? && !l.HeaderImage? && !l.TitleHeading? && !l.HeaderParagraph?
  {
  }

  lemma TitleRowsKinds(subject: string, h: HeaderConfig)
    ensures forall l :: l in TitleRows(subject, h) ==>
      && (l.TitleHeading? ==> l == TitleHeading(HeaderTitle(subject, h), h.titleFontSize.GetOr(DefaultTitleFontSize)))
      && !l.PreHeaderSpan? && !l.HeaderImage? && !l.SpacerText? && !l.HeaderParagraph?
  {
  }

  lemma HeaderTextRowsKinds(h: HeaderConfig)
    ensures forall l :: l in HeaderTextRows(h) ==>
      && (l.HeaderParagraph? ==>
            l == HeaderParagraph(NewlinesToBreaks(HeaderText(h)), h.textFontSize.GetOr(DefaultTextFontSize)))
      && !l.PreHeaderSpan? && !l.HeaderImage? && !l.SpacerText? && !l.TitleHeading?
  {
  }

  /** Each kind of content line of the header comes from its own group. */
  lemma HeaderKinds(subject: string, h: HeaderConfig)
    ensures forall l :: l in HeaderLines(subject, h) ==>
      && (l.PreHeaderSpan? ==> l in PreHeaderRows(h))
      && (l.HeaderImage? ==> l in HeaderImageRows(subject, h))
      && (l.SpacerText? ==> l in SpacerRows(h))
      && (l.TitleHeading? ==> l in TitleRows(subject, h))
      && (l.HeaderParagraph? ==> l in HeaderTextRows(h))
  {
    PreHeaderRowsKinds(h);
    HeaderImageRowsKinds(subject, h);
    SpacerRowsKinds(h);
    TitleRowsKinds(subject, h);
    HeaderTextRowsKinds(h);
  }

  /** Each row that is there has five lines, its content line in the middle. */
  lemma HeaderRowShapes(subject: string, h: HeaderConfig)
    ensures PreHeader(h) != "" ==>
      PreHeaderRows(h) == [Tr, HiddenCell, PreHeaderSpan(PreHeader(h)), TdClose, TrClose]
    ensures HeaderImageSource(h).Some? ==>
      && |HeaderImageRows(subject, h)| == 5
      && HeaderImageRows(subject, h)[2]
         == HeaderImage(HeaderImageSource(h).value, HeaderTitle(subject, h), h.imageWidth.GetOr(DefaultImageWidth))
    ensures |SpacerRows(h)| == 5 && SpacerRows(h)[2] == SpacerText
    ensures HeaderTitle(subject, h) != "" ==>
      && |TitleRows(subject, h)| == 5
      && TitleRows(subject, h)[2] == TitleHeading(HeaderTitle(subject, h), h.titleFontSize.GetOr(DefaultTitleFontSize))
    ensures HeaderTitle(subject, h) == "" ==> TitleRows(subject, h) == []
    ensures HeaderText(h) != "" ==>
      && |HeaderTextRows(h)| == 5
      && HeaderTextRows(h)[2]
         == HeaderParagraph(NewlinesToBreaks(HeaderText(h)), h.textFontSize.GetOr(DefaultTextFontSize))
  {
  }

  // ---------------------------------------------------------------------------
  // Header properties
  // ---------------------------------------------------------------------------

  /** The pre-header text counts as given when it has a non-whitespace character. */
  lemma PreHeaderGiven(h: HeaderConfig)
    ensures PreHeader(h) != "" <==> h.preHeaderText.Some? && !AllSpace(h.preHeaderText.value)
  {
    StripEmpty(h.preHeaderText.GetOr(""));
  }

  /** The hidden pre-header row appears exactly when the trimmed pre-header text
      is non-empty, and its span holds that text. */
  lemma PreHeaderRowPresence(subject: string, h: HeaderConfig)
    ensures (exists l :: l in HeaderLines(subject, h) && l.PreHeaderSpan?) <==> PreHeader(h) != ""
    ensures forall l :: l in HeaderLines(subject, h) && l.PreHeaderSpan? ==> l.preHeader == PreHeader(h)
  {
    HeaderKinds(subject, h);
    PreHeaderRowsKinds(h);
    if PreHeader(h) != "" {
      assert PreHeaderRows(h)[2] == PreHeaderSpan(PreHeader(h));
      assert PreHeaderSpan(PreHeader(h)) in HeaderLines(subject, h);
    }
  }

  /** When present, the pre-header row is the first row of the header. */
  lemma PreHeaderRowFirst(subject: string, h: HeaderConfig)
    requires PreHeader(h) != ""
    ensures HeaderLines(subject, h)[..5] == [Tr, HiddenCell, PreHeaderSpan(PreHeader(h)), TdClose, TrClose]
  {
    HeaderRowShapes(subject, h);
    PartsOfFive(HeaderLines(subject, h), PreHeaderRows(h), HeaderImageRows(subject, h), SpacerRows(h),
                TitleRows(subject, h), HeaderTextRows(h));
  }

  /** The header title is the trimmed configured title, or the subject when the
      configured title is missing or all whitespace. The H1 row appears exactly
      when that title is non-empty, and shows it at the configured size. */
  lemma HeaderTitleFallback(subject: string, h: HeaderConfig)
    ensures var t := h.headerTitle.GetOr("");
      HeaderTitle(subject, h) == (if AllSpace(t) then subject else Strip(t))
    ensures (exists l :: l in HeaderLines(subject, h) && l.TitleHeading?)
      <==> !AllSpace(h.headerTitle.GetOr("")) || subject != ""
    ensures forall l :: l in HeaderLines(subject, h) && l.TitleHeading? ==>
      l == TitleHeading(HeaderTitle(subject, h), h.titleFontSize.GetOr(DefaultTitleFontSize))
  {
    StripEmpty(h.headerTitle.GetOr(""));
    HeaderKinds(subject, h);
    TitleRowsKinds(subject, h);
    if HeaderTitle(subject, h) != "" {
      var heading := TitleHeading(HeaderTitle(subject, h), h.titleFontSize.GetOr(DefaultTitleFontSize));
      assert TitleRows(subject, h)[2] == heading;
      assert heading in HeaderLines(subject, h);
    }
  }

  /** The blank spacer row is always there, and the title row, when there is
      one, comes right after it. */
  lemma SpacerPrecedesTitle(subject: string, h: HeaderConfig)
    ensures exists k ::
      && 0 <= k < |HeaderLines(subject, h)|
      && HeaderLines(subject, h)[k] == SpacerText
      && (HeaderTitle(subject, h) != "" ==>
            && k + 5 < |HeaderLines(subject, h)|
            && HeaderLines(subject, h)[k + 5]
               == TitleHeading(HeaderTitle(subject, h), h.titleFontSize.GetOr(DefaultTitleFontSize)))
  {
    var front := PreHeaderRows(h) + HeaderImageRows(subject, h);
    var lines := HeaderLines(subject, h);
    AppendAssoc(front, SpacerRows(h), TitleRows(subject, h));
    assert lines == front + (SpacerRows(h) + TitleRows(subject, h)) + HeaderTextRows(h);
    var k := |front| + 2;
    assert lines[k] == SpacerText;
    if HeaderTitle(subject, h) != "" {
      var middle := SpacerRows(h) + TitleRows(subject, h);
      assert middle[7] == TitleRows(subject, h)[2];
      assert lines[k + 5] == middle[7];
    }
  }

  /** The image row, when there is one, comes right before the spacer row. */
  lemma ImagePrecedesSpacer(subject: string, h: HeaderConfig)
    ensures HeaderImageSource(h).Some? ==>
      exists k ::
        && 5 <= k < |HeaderLines(subject, h)|
        && HeaderLines(subject, h)[k] == SpacerText
        && HeaderLines(subject, h)[k - 5]
           == HeaderImage(HeaderImageSource(h).value, HeaderTitle(subject, h), h.imageWidth.GetOr(DefaultImageWidth))
  {
    if HeaderImageSource(h).Some? {
      var image := HeaderImage(HeaderImageSource(h).value, HeaderTitle(subject, h), h.imageWidth.GetOr(DefaultImageWidth));
      var back := TitleRows(subject, h) + HeaderTextRows(h);
      HeaderRowShapes(subject, h);
      AppendAssoc(PreHeaderRows(h) + HeaderImageRows(subject, h) + SpacerRows(h), TitleRows(subject, h), HeaderTextRows(h));
      NextRow(HeaderLines(subject, h), PreHeaderRows(h), HeaderImageRows(subject, h), SpacerRows(h), back,
              image, SpacerText);
    }
  }

  /** The header text row, when there is one, comes right after the title row. */
  lemma TextFollowsTitle(subject: string, h: HeaderConfig)
    ensures HeaderText(h) != "" && HeaderTitle(subject, h) != "" ==>
      exists k ::
        && 5 <= k < |HeaderLines(subject, h)|
        && HeaderLines(subject, h)[k]
           == HeaderParagraph(NewlinesToBreaks(HeaderText(h)), h.textFontSize.GetOr(DefaultTextFontSize))
        && HeaderLines(subject, h)[k - 5]
           == TitleHeading(HeaderTitle(subject, h), h.titleFontSize.GetOr(DefaultTitleFontSize))
  {
    if HeaderText(h) != "" && HeaderTitle(subject, h) != "" {
      var front := PreHeaderRows(h) + HeaderImageRows(subject, h) + SpacerRows(h);
      HeaderRowShapes(subject, h);
      NextRowLast(HeaderLines(subject, h), front, TitleRows(subject, h), HeaderTextRows(h),
              TitleHeading(HeaderTitle(subject, h), h.titleFontSize.GetOr(DefaultTitleFontSize)),
              HeaderParagraph(NewlinesToBreaks(HeaderText(h)), h.textFontSize.GetOr(DefaultTextFontSize)));
    }
  }

  /** Without a title, the header text row comes right after the spacer row. */
  lemma TextFollowsSpacer(subject: string, h: HeaderConfig)
    ensures HeaderText(h) != "" && HeaderTitle(subject, h) == "" ==>
      exists k ::
        && 5 <= k < |HeaderLines(subject, h)|
        && HeaderLines(subject, h)[k]
           == HeaderParagraph(NewlinesToBreaks(HeaderText(h)), h.textFontSize.GetOr(DefaultTextFontSize))
        && HeaderLines(subject, h)[k - 5] == SpacerText
  {
    if HeaderText(h) != "" && HeaderTitle(subject, h) == "" {
      var front := PreHeaderRows(h) + HeaderImageRows(subject, h);
      HeaderRowShapes(subject, h);
      DropEmpty(front + SpacerRows(h), TitleRows(subject, h), HeaderTextRows(h));
      NextRowLast(HeaderLines(subject, h), front, SpacerRows(h), HeaderTextRows(h),
              SpacerText, HeaderParagraph(NewlinesToBreaks(HeaderText(h)), h.textFontSize.GetOr(DefaultTextFontSize)));
    }
  }

  /** The embedded image wins over the image URL; the image row appears only
      when one of them is non-empty, and its alt text is the header title. */
  lemma HeaderImagePrecedence(subject: string, h: HeaderConfig)
    ensures (exists l :: l in HeaderLines(subject, h) && l.HeaderImage?)
      <==> Truthy(h.headerImageBase64) || Truthy(h.headerImageUrl)
    ensures forall l :: l in HeaderLines(subject, h) && l.HeaderImage? ==>
      && l.src == (if Truthy(h.headerImageBase64) then h.headerImageBase64.value else h.headerImageUrl.value)
      && l.alt == HeaderTitle(subject, h)
      && l.width == h.imageWidth.GetOr(DefaultImageWidth)
  {
    HeaderKinds(subject, h);
    HeaderImageRowsKinds(subject, h);
    if HeaderImageSource(h).Some? {
      var image := HeaderImage(HeaderImageSource(h).value, HeaderTitle(subject, h), h.imageWidth.GetOr(DefaultImageWidth));
      assert HeaderImageRows(subject, h)[2] == image;
      assert image in HeaderLines(subject, h);
    }
  }

  /** The header text row appears exactly when the header text has a
      non-whitespace character. Its paragraph holds the trimmed text with every
      newline turned into a `<br>` tag, so no newline is left in it. */
  lemma HeaderTextParagraph(subject: string, h: HeaderConfig)
    ensures (exists l :: l in HeaderLines(subject, h) && l.HeaderParagraph?)
      <==> h.headerText.Some? && !AllSpace(h.headerText.value)
    ensures forall l :: l in HeaderLines(subject, h) && l.HeaderParagraph? ==>
      && l.text == Join(Split(HeaderText(h), "\n"), "<br>")
      && '\n' !in l.text
      && l.textSize == h.textFontSize.GetOr(DefaultTextFontSize)
  {
    StripEmpty(h.headerText.GetOr(""));
    HeaderKinds(subject, h);
    HeaderTextRowsKinds(h);
    ReplaceIsJoinOfSplit(HeaderText(h), "\n", "<br>");
    ReplaceRemovesChar(HeaderText(h), '\n', "<br>");
    if HeaderText(h) != "" {
      var paragraph := HeaderParagraph(NewlinesToBreaks(HeaderText(h)), h.textFontSize.GetOr(DefaultTextFontSize));
      assert HeaderTextRows(h)[2] == paragraph;
      assert paragraph in HeaderLines(subject, h);
    }
  }
}
