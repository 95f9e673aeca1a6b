/** NewsletterGenerator: each method builds its list of lines step by step, as
    the generator does, and is proved to produce exactly the lines that the
    corresponding function of module Newsletter describes. */
module Generator {
  import opened Wrappers
  import opened Text
  import opened Markup
  import opened Newsletter

  /** generate_html: the prologue, the header, one fragment per layer in list
      order, the footer and the closing tags, joined with newlines. */
  method GenerateHtml(n: NewsletterConfig) returns (html: string)
    ensures html == Document(n)
  {
    var parts := [Doctype, HtmlOpen, HeadOpen, MetaCharset, MetaViewport, TitleTag(n.subject), HeadClose,
                  BodyOpen(n.fontFamily.GetOr(DefaultFontFamily)), OuterTable, Tr, OuterCell,
                  InnerTable(n.maxWidth.GetOr(DefaultMaxWidth), n.backgroundColor)];
    assert parts == Prologue(n);
    var header := GenerateHeaderHtml(n.subject, n.header);
    parts := parts + header;

    ghost var front := Prologue(n) + HeaderLines(n.subject, n.header);
    var i := 0;
    while i < |n.layers|
      invariant 0 <= i <= |n.layers|
      invariant parts == front + LayersLines(n.layers[..i], n.textColor)
    {
      var fragment := GenerateLayerHtml(n.layers[i], n.textColor);
      LayersLinesSnoc(n.layers, i, n.textColor);
      AppendAssoc(front, LayersLines(n.layers[..i], n.textColor), fragment);
      parts := parts + fragment;
      i := i + 1;
    }
    LayersLinesAll(n.layers, n.textColor);

    var footer := GenerateFooterHtml(n.footer);
    parts := parts + footer;
    assert parts == front + LayersLines(n.layers, n.textColor) + FooterLines(n.footer);
    parts := parts + [TableClose, TdClose, TrClose, TableClose, BodyClose, HtmlClose];
    assert parts == DocumentLines(n);
    html := Join(RenderAll(parts), "\n");
  }

  /** _generate_layer_html. */
  method GenerateLayerHtml(layer: Layer, textColor: string) returns (parts: seq<Line>)
    ensures parts == LayerLines(layer, textColor)
  {
    parts := [];
    parts := parts + [Tr];
    parts := parts + [LayerCell];

    if Truthy(layer.imageBase64) {
      var alignment := Lower(layer.imageAlignment.GetOr(DefaultLayerAlignment));
      var alignStyle := AlignStyle(alignment);
      parts := parts + [AlignDiv(alignStyle)];
      parts := parts + [LayerImage(layer.imageBase64.value, layer.title.GetOr(DefaultLayerAlt))];
      parts := parts + [DivClose];
    }
    assert parts == [Tr, LayerCell] + LayerImageBlock(layer);

    if Truthy(layer.title) {
      parts := parts + [LayerTitle(textColor, layer.title.value)];
    }
    assert parts == [Tr, LayerCell] + LayerImageBlock(layer) + LayerTitleLines(layer, textColor);

    if Truthy(layer.subtitle) {
      parts := parts + [LayerSubtitle(textColor, layer.subtitle.value)];
    }
    assert parts == [Tr, LayerCell] + LayerImageBlock(layer) + LayerTitleLines(layer, textColor)
                    + LayerSubtitleLines(layer, textColor);

    if Truthy(layer.content) {
      var content := NewlinesToBreaks(layer.content.value);
      parts := parts + [LayerParagraph(textColor, content)];
    }
    assert parts == [Tr, LayerCell] + LayerImageBlock(layer) + LayerTitleLines(layer, textColor)
                    + LayerSubtitleLines(layer, textColor) + LayerContentLines(layer, textColor);

    parts := parts + [TdClose];
    parts := parts + [TrClose];

    parts := parts + [Tr];
    parts := parts + [SeparatorCell];
    parts := parts + [TrClose];
  }

  /** _generate_header_html. */
  method GenerateHeaderHtml(subject: string, headerConfig: HeaderConfig) returns (parts: seq<Line>)
    ensures parts == HeaderLines(subject, headerConfig)
  {
    parts := [];

    var preHeaderText := Strip(headerConfig.preHeaderText.GetOr(""));
    if preHeaderText != "" {
      AppendRow(parts, HiddenCell, [PreHeaderSpan(preHeaderText)]);
      parts := parts + [Tr];
      parts := parts + [HiddenCell];
      parts := parts + [PreHeaderSpan(preHeaderText)];
      parts := parts + [TdClose];
      parts := parts + [TrClose];
    }
    assert parts == PreHeaderRows(headerConfig);

    var headerTitle := Strip(headerConfig.headerTitle.GetOr(""));
    if headerTitle == "" {
      headerTitle := subject;
    }
    assert headerTitle == HeaderTitle(subject, headerConfig);
    var headerText := Strip(headerConfig.headerText.GetOr(""));
    var headerImageBase64 := headerConfig.headerImageBase64;
    var headerImageUrl := headerConfig.headerImageUrl;
    var headerBgColor := headerConfig.headerBgColor.GetOr(DefaultHeaderBgColor);
    var imageWidth := headerConfig.imageWidth.GetOr(DefaultImageWidth);
    var titleFontSize := headerConfig.titleFontSize.GetOr(DefaultTitleFontSize);
    var textFontSize := headerConfig.textFontSize.GetOr(DefaultTextFontSize);

    var imageSrc: Option<string> := None;
    if Truthy(headerImageBase64) {
      imageSrc := headerImageBase64;
    } else if Truthy(headerImageUrl) {
      imageSrc := headerImageUrl;
    }
    assert imageSrc == HeaderImageSource(headerConfig);

    if Truthy(imageSrc) {
      AppendRow(parts, HeaderImageCell, [HeaderImage(imageSrc.value, headerTitle, imageWidth)]);
      parts := parts + [Tr];
      parts := parts + [HeaderImageCell];
      parts := parts + [HeaderImage(imageSrc.value, headerTitle, imageWidth)];
      parts := parts + [TdClose];
      parts := parts + [TrClose];
    }
    assert parts == PreHeaderRows(headerConfig) + HeaderImageRows(subject, headerConfig);

    AppendRow(parts, SpacerCell(headerBgColor), [SpacerText]);
    parts := parts + [Tr];
    parts := parts + [SpacerCell(headerBgColor)];
    parts := parts + [SpacerText];
    parts := parts + [TdClose];
    parts := parts + [TrClose];
    assert parts == PreHeaderRows(headerConfig) + HeaderImageRows(subject, headerConfig) + SpacerRows(headerConfig);

    if headerTitle != "" {
      AppendRow(parts, TitleCell(headerBgColor), [TitleHeading(headerTitle, titleFontSize)]);
      parts := parts + [Tr];
      parts := parts + [TitleCell(headerBgColor)];
      parts := parts + [TitleHeading(headerTitle, titleFontSize)];
      parts := parts + [TdClose];
      parts := parts + [TrClose];
    }
    assert parts == PreHeaderRows(headerConfig) + HeaderImageRows(subject, headerConfig) + SpacerRows(headerConfig)
                    + TitleRows(subject, headerConfig);

    if headerText != "" {
      var formattedText := NewlinesToBreaks(headerText);
      AppendRow(parts, TextCell(headerBgColor), [HeaderParagraph(formattedText, textFontSize)]);
      parts := parts + [Tr];
      parts := parts + [TextCell(headerBgColor)];
      parts := parts + [HeaderParagraph(formattedText, textFontSize)];
      parts := parts + [TdClose];
      parts := parts + [TrClose];
    }
  }

  /** _generate_footer_html. */
  method GenerateFooterHtml(footerConfig: FooterConfig) returns (parts: seq<Line>)
    ensures parts == FooterLines(footerConfig)
  {
    var footerColor := footerConfig.footerColor.GetOr(DefaultFooterColor);
    parts := [];

    parts := parts + [Tr];
    parts := parts + [RuleCell];
    parts := parts + [RuleTable];
    parts := parts + [Tr];
    parts := parts + [RuleLine];
    parts := parts + [TrClose];
    parts := parts + [TableClose];
    parts := parts + [TdClose];
    parts := parts + [TrClose];

    assert parts == FooterRuleRows;
    parts := parts + [Tr];
    parts := parts + [FooterCell(footerColor)];
    ghost var opening := FooterRuleRows + [Tr, FooterCell(FooterColor(footerConfig))];
    assert parts == opening;

    var disclaimer := footerConfig.disclaimerText.GetOr(DefaultDisclaimer);
    if disclaimer != "" {
      parts := parts + [DisclaimerLine(disclaimer)];
    }
    ghost var d := if Disclaimer(footerConfig) != "" then [DisclaimerLine(Disclaimer(footerConfig))] else [];
    assert parts == opening + d;

    var companyName := footerConfig.companyName.GetOr(DefaultCompanyName);
    var copyrightText := footerConfig.copyrightText.GetOr("\U{A9} 2024 " + companyName + ". All rights reserved.");
    if copyrightText != "" && Occurs(copyrightText, CompanyPlaceholder) {
      copyrightText := Replace(copyrightText, CompanyPlaceholder, companyName);
    }
    assert copyrightText == Copyright(footerConfig);
    if copyrightText != "" {
      parts := parts + [CopyrightLine(copyrightText)];
    }
    ghost var c := if Copyright(footerConfig) != "" then [CopyrightLine(Copyright(footerConfig))] else [];
    assert parts == opening + d + c;

    var address := footerConfig.address.GetOr(DefaultAddress);
    if address != "" {
      parts := parts + [AddressLine(address)];
    }
    assert parts == opening + FooterTextLines(footerConfig);

    var unsubscribeLink := footerConfig.unsubscribeLink.GetOr(DefaultUnsubscribeLink);
    var viewOnlineLink := footerConfig.viewOnlineLink.GetOr(DefaultViewOnlineLink);

    parts := parts + [UnsubscribeLink(unsubscribeLink, footerColor)];
    parts := parts + [ViewOnlineLink(viewOnlineLink, footerColor)];
    assert parts == opening + FooterTextLines(footerConfig) + FooterLinks(footerConfig);
    parts := parts + [TdClose];
    parts := parts + [TrClose];
  }
}
