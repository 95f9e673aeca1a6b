/** The newsletter generator as functions: each fragment of the document
    (header, one layer, footer) is the list of lines the generator emits for
    it, and the document is the text of those lines joined with newlines. The configuration
    dictionaries become records; a field is None when its key is missing, and
    every lookup falls back to the same default the generator uses. */
module Newsletter {
  import opened Wrappers
  import opened Text
  import opened Markup

  // ---------------------------------------------------------------------------
  // Configuration
  // ---------------------------------------------------------------------------

  /** One content layer as the layer form builds it. */
  datatype Layer = Layer(
    title: Option<string>,
    subtitle: Option<string>,
    content: Option<string>,
    imageBase64: Option<string>,
    imageAlignment: Option<string>)

  datatype HeaderConfig = HeaderConfig(
    preHeaderText: Option<string>,
    headerTitle: Option<string>,
    headerText: Option<string>,
    headerImageBase64: Option<string>,
    headerImageUrl: Option<string>,
    headerBgColor: Option<string>,
    imageWidth: Option<int>,
    titleFontSize: Option<int>,
    textFontSize: Option<int>)

  datatype FooterConfig = FooterConfig(
    footerColor: Option<string>,
    disclaimerText: Option<string>,
    companyName: Option<string>,
    copyrightText: Option<string>,
    address: Option<string>,
    unsubscribeLink: Option<string>,
    viewOnlineLink: Option<string>)

  /** The arguments of generate_html; the last two have parameter defaults. */
  datatype NewsletterConfig = NewsletterConfig(
    subject: string,
    backgroundColor: string,
    textColor: string,
    header: HeaderConfig,
    layers: seq<Layer>,
    footer: FooterConfig,
    maxWidth: Option<int>,
    fontFamily: Option<string>)

  const DefaultMaxWidth := 1000
  const DefaultFontFamily := "Arial, sans-serif"
  const DefaultHeaderBgColor := "#ffffff"
  const DefaultImageWidth := 600
  const DefaultTitleFontSize := 28
  const DefaultTextFontSize := 16
  const DefaultLayerAlignment := "center"
  const DefaultLayerAlt := "Newsletter Image"
  const DefaultFooterColor := "#999999"
  const DefaultDisclaimer := "This email was sent to you because you subscribed to our newsletter."
  const DefaultCompanyName := "Your Company Name"
  const DefaultAddress := "123 Main Street, Suite 400, City, State 12345"
  const DefaultUnsubscribeLink := "#UNSUBSCRIBE_LINK"
  const DefaultViewOnlineLink := "#VIEW_ONLINE_LINK"
  const CompanyPlaceholder := "{company}"

  /** Python truthiness of `d.get(key)` for a string value. */
  predicate Truthy(o: Option<string>) {
    o.Some? && o.value != ""
  }

  /** Every newline of a paragraph becomes a `<br>` tag. */
  function NewlinesToBreaks(s: string): string {
    Replace(s, "\n", "<br>")
  }

  // ---------------------------------------------------------------------------
  // Header
  // ---------------------------------------------------------------------------

  /** The hidden pre-header text, trimmed. */
  function PreHeader(h: HeaderConfig): string {
    Strip(h.preHeaderText.GetOr(""))
  }

  /** The header title, trimmed, or the subject when nothing is left of it. */
  function HeaderTitle(subject: string, h: HeaderConfig): string {
    var t := Strip(h.headerTitle.GetOr(""));
    if t == "" then subject else t
  }

  /** The header body text, trimmed. */
  function HeaderText(h: HeaderConfig): string {
    Strip(h.headerText.GetOr(""))
  }

  function HeaderBgColor(h: HeaderConfig): string {
    h.headerBgColor.GetOr(DefaultHeaderBgColor)
  }

  /** The header image source: the embedded image when there is one, otherwise
      the URL when there is one. */
  function HeaderImageSource(h: HeaderConfig): Option<string> {
    if Truthy(h.headerImageBase64) then h.headerImageBase64
    else if Truthy(h.headerImageUrl) then h.headerImageUrl
    else None
  }

  function PreHeaderRows(h: HeaderConfig): seq<Line> {
    if PreHeader(h) != "" then Row(HiddenCell, [PreHeaderSpan(PreHeader(h))]) else []
  }

  function HeaderImageRows(subject: string, h: HeaderConfig): seq<Line> {
    match HeaderImageSource(h)
    case Some(src) =>
      Row(HeaderImageCell, [HeaderImage(src, HeaderTitle(subject, h), h.imageWidth.GetOr(DefaultImageWidth))])
    case None => []
  }

  function SpacerRows(h: HeaderConfig): seq<Line> {
    Row(SpacerCell(HeaderBgColor(h)), [SpacerText])
  }

  function TitleRows(subject: string, h: HeaderConfig): seq<Line> {
    var title := HeaderTitle(subject, h);
    if title != "" then
      Row(TitleCell(HeaderBgColor(h)), [TitleHeading(title, h.titleFontSize.GetOr(DefaultTitleFontSize))])
    else []
  }

  function HeaderTextRows(h: HeaderConfig): seq<Line> {
    var text := HeaderText(h);
    if text != "" then
      Row(TextCell(HeaderBgColor(h)),
          [HeaderParagraph(NewlinesToBreaks(text), h.textFontSize.GetOr(DefaultTextFontSize))])
    else []
  }

  /** The header fragment: pre-header, image, spacer, title and text rows. */
  function HeaderLines(subject: string, h: HeaderConfig): seq<Line> {
    PreHeaderRows(h) + HeaderImageRows(subject, h) + SpacerRows(h)
    + TitleRows(subject, h) + HeaderTextRows(h)
  }

  // ---------------------------------------------------------------------------
  // Layers
  // ---------------------------------------------------------------------------

  const SeparatorRow := [Tr, SeparatorCell, TrClose]

  /** The dictionary lookup of a lower-cased alignment name, with its fallback. */
  function AlignStyle(alignment: string): string {
    if alignment == "left" then "text-align: left;"
    else if alignment == "center" then "text-align: center;"
    else if alignment == "right" then "text-align: right;"
    else "text-align: center;"
  }

  function LayerAlignStyle(layer: Layer): string {
    AlignStyle(Lower(layer.imageAlignment.GetOr(DefaultLayerAlignment)))
  }

  function LayerImageBlock(layer: Layer): seq<Line> {
    if Truthy(layer.imageBase64) then
      [AlignDiv(LayerAlignStyle(layer)),
       LayerImage(layer.imageBase64.value, layer.title.GetOr(DefaultLayerAlt)),
       DivClose]
    else []
  }

  function LayerTitleLines(layer: Layer, color: string): seq<Line> {
    if Truthy(layer.title) then [LayerTitle(color, layer.title.value)] else []
  }

  function LayerSubtitleLines(layer: Layer, color: string): seq<Line> {
    if Truthy(layer.subtitle) then [LayerSubtitle(color, layer.subtitle.value)] else []
  }

  function LayerContentLines(layer: Layer, color: string): seq<Line> {
    if Truthy(layer.content) then [LayerParagraph(color, NewlinesToBreaks(layer.content.value))] else []
  }

  /** One layer fragment: its row (image block, heading, subheading and
      paragraph), then the separator row. */
  function LayerLines(layer: Layer, color: string): seq<Line> {
    [Tr, LayerCell] + LayerImageBlock(layer) + LayerTitleLines(layer, color)
    + LayerSubtitleLines(layer, color) + LayerContentLines(layer, color) + [TdClose, TrClose]
    + SeparatorRow
  }

  /** The layer fragments, one per layer, in list order. */
  function LayersLines(layers: seq<Layer>, color: string): seq<Line> {
    if layers == [] then []
    else LayersLines(layers[..|layers| - 1], color) + LayerLines(layers[|layers| - 1], color)
  }

  /** Taking one more layer adds that layer's fragment at the end. */
  lemma LayersLinesSnoc(layers: seq<Layer>, i: nat, color: string)
    requires i < |layers|
    ensures LayersLines(layers[..i + 1], color) == LayersLines(layers[..i], color) + LayerLines(layers[i], color)
  {
    assert layers[..i + 1][..i] == layers[..i];
  }

  /** Taking every layer is the whole list. */
  lemma LayersLinesAll(layers: seq<Layer>, color: string)
    ensures LayersLines(layers[..|layers|], color) == LayersLines(layers, color)
  {
    assert layers[..|layers|] == layers;
  }

  // ---------------------------------------------------------------------------
  // Footer
  // ---------------------------------------------------------------------------

  const FooterRuleRows := Row(RuleCell, [RuleTable, Tr, RuleLine, TrClose, TableClose])

  function FooterColor(f: FooterConfig): string {
    f.footerColor.GetOr(DefaultFooterColor)
  }

  function Disclaimer(f: FooterConfig): string {
    f.disclaimerText.GetOr(DefaultDisclaimer)
  }

  function CompanyName(f: FooterConfig): string {
    f.companyName.GetOr(DefaultCompanyName)
  }

  /** The copyright text before substitution; its default already names the company. */
  function RawCopyright(f: FooterConfig): string {
    f.copyrightText.GetOr("\U{A9} 2024 " + CompanyName(f) + ". All rights reserved.")
  }

  /** The copyright text, with the placeholder replaced when it contains one. */
  function Copyright(f: FooterConfig): string {
    var c := RawCopyright(f);
    if c != "" && Occurs(c, CompanyPlaceholder) then Replace(c, CompanyPlaceholder, CompanyName(f))
    else c
  }

  function Address(f: FooterConfig): string {
    f.address.GetOr(DefaultAddress)
  }

  /** The optional legal lines of the footer cell, in order. */
  function FooterTextLines(f: FooterConfig): seq<Line> {
    (if Disclaimer(f) != "" then [DisclaimerLine(Disclaimer(f))] else [])
    + (if Copyright(f) != "" then [CopyrightLine(Copyright(f))] else [])
    + (if Address(f) != "" then [AddressLine(Address(f))] else [])
  }

  function FooterLinks(f: FooterConfig): seq<Line> {
    [UnsubscribeLink(f.unsubscribeLink.GetOr(DefaultUnsubscribeLink), FooterColor(f)),
     ViewOnlineLink(f.viewOnlineLink.GetOr(DefaultViewOnlineLink), FooterColor(f))]
  }

  /** The footer fragment: the rule table, then one cell with the legal lines
      and the two links. */
  function FooterLines(f: FooterConfig): seq<Line> {
    FooterRuleRows + [Tr, FooterCell(FooterColor(f))] + FooterTextLines(f) + FooterLinks(f) + [TdClose, TrClose]
  }

  // ---------------------------------------------------------------------------
  // Document
  // ---------------------------------------------------------------------------

  /** The lines before the header: prologue, head and the two table shells. */
  function Prologue(n: NewsletterConfig): seq<Line> {
    [Doctype, HtmlOpen, HeadOpen, MetaCharset, MetaViewport, TitleTag(n.subject), HeadClose,
     BodyOpen(n.fontFamily.GetOr(DefaultFontFamily)), OuterTable, Tr, OuterCell,
     InnerTable(n.maxWidth.GetOr(DefaultMaxWidth), n.backgroundColor)]
  }

  const Epilogue := [TableClose, TdClose, TrClose, TableClose, BodyClose, HtmlClose]

  /** Every line of the document, in order. */
  function DocumentLines(n: NewsletterConfig): seq<Line> {
    Prologue(n) + HeaderLines(n.subject, n.header) + LayersLines(n.layers, n.textColor)
    + FooterLines(n.footer) + Epilogue
  }

  /** The generated document: the text of its lines joined with newlines. */
  function Document(n: NewsletterConfig): string {
    Join(RenderAll(DocumentLines(n)), "\n")
  }
}
