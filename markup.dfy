/** The lines the generator emits. Every entry it appends to its list of parts
    is one of the templates below with the values it inserts into it; Render
    gives the exact text of the entry. Keeping the template apart from its text
    lets the structure of a fragment (which rows appear, in which order) be
    reasoned about without the markup text. */
module Markup {
  import opened Text

  datatype Line =
    // document shell
    | Doctype
    | HtmlOpen
    | HeadOpen
    | MetaCharset
    | MetaViewport
    | TitleTag(subject: string)
    | HeadClose
    | BodyOpen(fontFamily: string)
    | OuterTable
    | OuterCell
    | InnerTable(maxWidth: int, backgroundColor: string)
    | Tr
    | TdClose
    | TrClose
    | TableClose
    | BodyClose
    | HtmlClose
    // header
    | HiddenCell
    | PreHeaderSpan(preHeader: string)
    | HeaderImageCell
    | HeaderImage(src: string, alt: string, width: int)
    | SpacerCell(headerBg: string)
    | SpacerText
    | TitleCell(headerBg: string)
    | TitleHeading(title: string, titleSize: int)
    | TextCell(headerBg: string)
    | HeaderParagraph(text: string, textSize: int)
    // layer
    | LayerCell
    | AlignDiv(alignStyle: string)
    | LayerImage(src: string, alt: string)
    | DivClose
    | LayerTitle(color: string, text: string)
    | LayerSubtitle(color: string, text: string)
    | LayerParagraph(color: string, text: string)
    | SeparatorCell
    // footer
    | RuleCell
    | RuleTable
    | RuleLine
    | FooterCell(color: string)
    | DisclaimerLine(text: string)
    | CopyrightLine(text: string)
    | AddressLine(text: string)
    | UnsubscribeLink(href: string, color: string)
    | ViewOnlineLink(href: string, color: string)

  /** The text of a line, as the generator formats it. */
  function Render(line: Line): string {
    match line
    case Doctype => "<!DOCTYPE html>"
    case HtmlOpen => "<html lang=\"en\">"
    case HeadOpen => "<head>"
    case MetaCharset => "<meta charset=\"UTF-8\">"
    case MetaViewport => "<meta name=\"viewport\" content=\"width=device-width, initial-scale=1.0\">"
    case TitleTag(subject) => "<title>" + subject + "</title>"
    case HeadClose => "</head>"
    case BodyOpen(font) =>
      "<body style=\"margin: 0; padding: 0; font-family: " + font + "; background-color: #f4f4f4;\">"
    case OuterTable =>
      "<table role=\"presentation\" style=\"width: 100%; border-collapse: collapse; background-color: #f4f4f4;\">"
    case OuterCell => "<td align=\"center\" style=\"padding: 20px 0;\">"
    case InnerTable(w, bg) =>
      "<table role=\"presentation\" style=\"width: " + IntToStr(w)
      + "px; max-width: 100%; border-collapse: collapse; background-color: " + bg + "; margin: 0 auto;\">"
    case Tr => "<tr>"
    case TdClose => "</td>"
    case TrClose => "</tr>"
    case TableClose => "</table>"
    case BodyClose => "</body>"
    case HtmlClose => "</html>"
    case HiddenCell =>
      "<td style=\"padding: 0; font-size: 0; line-height: 0; display: none !important; "
      + "max-height: 0px; max-width: 0px; opacity: 0; overflow: hidden; mso-hide: all;\">"
    case PreHeaderSpan(text) =>
      "<span style=\"font-size: 1px; color: #ffffff; line-height: 1px;\">" + text + "</span>"
    case HeaderImageCell => "<td style=\"padding: 0; margin: 0;\">"
    case HeaderImage(src, alt, w) =>
      "<img src=\"" + src + "\" alt=\"" + alt + "\" "
      + "style=\"width: 100%; max-width: " + IntToStr(w) + "px; height: auto; display: block; margin: 0; padding: 0;\">"
    case SpacerCell(bg) => "<td style=\"padding: 20px 20px; background-color: " + bg + ";\">"
    case SpacerText => "&nbsp;"
    case TitleCell(bg) => "<td style=\"padding: 0 20px 10px 20px; background-color: " + bg + ";\">"
    case TitleHeading(title, size) =>
      "<h1 style=\"color: #333333; font-size: " + IntToStr(size)
      + "px; margin: 0; font-weight: bold; line-height: 1.3;\">" + title + "</h1>"
    case TextCell(bg) => "<td style=\"padding: 0 20px 20px 20px; background-color: " + bg + ";\">"
    case HeaderParagraph(text, size) =>
      "<p style=\"color: #333333; font-size: " + IntToStr(size)
      + "px; margin: 0; line-height: 1.5;\">" + text + "</p>"
    case LayerCell => "<td style=\"padding: 30px 20px;\">"
    case AlignDiv(style) => "<div style=\"" + style + " margin-bottom: 20px;\">"
    case LayerImage(src, alt) =>
      "<img src=\"" + src + "\" " + "alt=\"" + alt + "\" "
      + "style=\"max-width: 100%; height: auto; border-radius: 8px;\">"
    case DivClose => "</div>"
    case LayerTitle(color, text) =>
      "<h2 style=\"color: " + color
      + "; margin: 0 0 10px 0; font-size: 26px; font-weight: 700; line-height: 1.2;\">" + text + "</h2>"
    case LayerSubtitle(color, text) =>
      "<h3 style=\"color: " + color
      + "; margin: 0 0 15px 0; font-size: 18px; font-weight: 500; line-height: 1.4; opacity: 0.8;\">"
      + text + "</h3>"
    case LayerParagraph(color, text) =>
      "<p style=\"color: " + color + "; margin: 0 0 20px 0; font-size: 16px; line-height: 1.5;\">"
      + text + "</p>"
    case SeparatorCell =>
      "<td style=\"border-bottom: 1px solid rgba(0,0,0,0.1); padding: 0 20px;\"></td>"
    case RuleCell => "<td style=\"padding: 20px 20px 10px 20px;\">"
    case RuleTable => "<table role=\"presentation\" style=\"width: 100%; border-collapse: collapse;\">"
    case RuleLine =>
      "<td style=\"height: 1px; background-color: #e0e0e0; line-height: 1px; font-size: 1px;\">&nbsp;</td>"
    case FooterCell(color) =>
      "<td align=\"center\" style=\"padding: 10px 20px 30px 20px; font-size: 12px; line-height: 18px; color: "
      + color + ";\">"
    case DisclaimerLine(text) => text + "<br>"
    case CopyrightLine(text) => text + "<br>"
    case AddressLine(text) => text + "<br><br>"
    case UnsubscribeLink(href, color) =>
      "<a href=\"" + href + "\" target=\"_blank\" style=\"color: " + color
      + "; text-decoration: underline;\">Unsubscribe</a>"
    case ViewOnlineLink(href, color) =>
      " &bull; <a href=\"" + href + "\" target=\"_blank\" style=\"color: " + color
      + "; text-decoration: underline;\">View Online</a>"
  }

  /** The text of every line, in order. */
  function RenderAll(lines: seq<Line>): (texts: seq<string>)
    ensures |texts| == |lines|
    ensures forall i :: 0 <= i < |lines| ==> texts[i] == Render(lines[i])
  {
    if lines == [] then [] else [Render(lines[0])] + RenderAll(lines[1..])
  }

  /** One table row: the opening cell line, the cell's content, the closing tags. */
  function Row(cell: Line, body: seq<Line>): seq<Line> {
    [Tr, cell] + body + [TdClose, TrClose]
  }

  /** Appending a row's lines one at a time appends the row. */
  lemma AppendRow(parts: seq<Line>, cell: Line, body: seq<Line>)
    ensures parts + [Tr] + [cell] + body + [TdClose] + [TrClose] == parts + Row(cell, body)
  {
  }

  /** Where the first, second and last of five concatenated line lists sit. */
  lemma PartsOfFive(lines: seq<Line>, a: seq<Line>, b: seq<Line>, c: seq<Line>, d: seq<Line>, e: seq<Line>)
    requires lines == a + b + c + d + e
    ensures |lines| == |a| + |b| + |c| + |d| + |e|
    ensures lines[..|a|] == a
    ensures lines[|a|..|a| + |b|] == b
    ensures lines[|lines| - |e|..] == e
  {
  }

  /** Of two five-line rows one after the other, the content line of the
      second comes five lines after that of the first. */
  lemma NextRow(lines: seq<Line>, front: seq<Line>, first: seq<Line>, second: seq<Line>, back: seq<Line>,
                x: Line, y: Line)
    requires lines == front + first + second + back
    requires |first| == 5 && |second| == 5
    requires first[2] == x && second[2] == y
    ensures exists k :: 5 <= k < |lines| && lines[k] == y && lines[k - 5] == x
  {
    var k := |front| + 7;
    assert lines[k] == y && lines[k - 5] == x;
  }

  /** The same, for two rows at the end of the list. */
  lemma NextRowLast(lines: seq<Line>, front: seq<Line>, first: seq<Line>, second: seq<Line>, x: Line, y: Line)
    requires lines == front + first + second
    requires |first| == 5 && |second| == 5
    requires first[2] == x && second[2] == y
    ensures exists k :: 5 <= k < |lines| && lines[k] == y && lines[k - 5] == x
  {
    NextRow(lines, front, first, second, [], x, y);
  }

  /** An empty group in the middle of a list leaves no trace. */
  lemma DropEmpty(front: seq<Line>, empty: seq<Line>, back: seq<Line>)
    requires empty == []
    ensures front + empty + back == front + back
  {
  }

  /** Concatenation of line lists is associative. */
  lemma AppendAssoc(a: seq<Line>, b: seq<Line>, c: seq<Line>)
    ensures a + b + c == a + (b + c)
  {
  }
}
