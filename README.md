# Newsletter HTML generator, modelled in Dafny

This project models `NewsletterGenerator` from `app.py`. It is the engine
that turns a newsletter configuration into one email-safe HTML document:
- a subject, the colors, a header configuration, a list of content layers,
  a footer configuration, and an optional maximum width and font family.

The engine emits four things in order:
- the document prologue and the outer table shell;
- the header fragment (hidden pre-header, image, spacer, title, text);
- one fragment per layer, in list order (image block, H2, H3, paragraph,
  separator row);
- the footer fragment (rule table, disclaimer, copyright with the
  `{company}` placeholder replaced, address, Unsubscribe and View Online
  links).

It then closes the shell and joins every part with a newline.

Modules, in dependency order:

- `Wrappers` (`wrappers.dfy`): `Option`. A configuration key that is missing
  is `None`, and `dict.get(key, default)` is `GetOr(default)`.
- `Text` (`text.dfy`): the `str` operations the generator uses:
  - `strip()`, as `Strip`, with Python's whitespace set;
  - `replace`, `split` and `join`;
  - `lower()`;
  - the decimal rendering of an int inside an f-string, as `IntToStr`, with
    `ParseInt` as its inverse.
- `Markup` (`markup.dfy`): `Line`, one constructor per kind of entry the
  generator appends to its list of parts, carrying the values it inserts.
  `Render` gives the exact text of each entry.
- `Newsletter` (`newsletter.dfy`): the configuration records, the defaults,
  and each fragment as a function from its configuration to its list of
  lines. `Document` is the text of `DocumentLines` joined with newlines.
- `Generator` (`generator.dfy`): the four generator functions as methods.
  Each builds its list step by step, with the same appends under the same
  guards and the same loop over the layers. Each is proved to produce exactly
  the lines its `Newsletter` function describes.
- `HeaderProperties`, `LayerProperties`, `FooterProperties` and
  `DocumentProperties`: what those functions promise. This covers which rows
  appear and when, in which order, with which text, and where each fragment
  sits in the document.

`app.py` renders the layers in list order, exactly as the list gives them;
nothing sorts them. It has no separate subscription block and no social
links: the legal lines and the two links sit in the footer cell. It inserts
all text verbatim, without escaping.

## Model

| member | source | states |
|---|---|---|
| Generator.GenerateHtml | app.py:62-122 | The returned text is `Document(n)`: the prologue, the header lines, one layer fragment per layer in list order (the loop keeps the parts equal to the prologue, the header and the fragments of the layers seen so far), the footer lines and the six closing lines, joined with newlines |
| Generator.GenerateLayerHtml | app.py:125-190 | The appended parts are exactly `LayerLines(layer, textColor)` |
| Generator.GenerateHeaderHtml | app.py:193-278 | The appended parts are exactly `HeaderLines(subject, headerConfig)` |
| Generator.GenerateFooterHtml | app.py:281-341 | The appended parts are exactly `FooterLines(footerConfig)` |
| DocumentProperties.DocumentFraming | app.py:88-122 | The document text starts with `<!DOCTYPE html>` and ends with `</html>` |
| DocumentProperties.DocumentEnds | app.py:88-120 | The first part is the doctype line and the last part is the closing html tag |
| DocumentProperties.DocumentTitle | app.py:94 | The sixth part is the title element holding the subject verbatim |
| DocumentProperties.DocumentWidth | app.py:100-101 | The twelfth part is the inner table with the given maximum width (1000 when none is given) and the background color. Whatever the width, its decimal text reads back as that width: no range check, no clamping |
| DocumentProperties.HeaderInPlace | app.py:88-104 | The header fragment follows the twelve prologue lines directly |
| DocumentProperties.LayerInPlace | app.py:104-110 | For every layer i, the document is the prologue, the header, the fragments of the layers before i, layer i's fragment, the fragments of the layers after i, the footer and the closing lines. There is one fragment per layer, in list order, with no reordering or deduplication |
| DocumentProperties.FooterBeforeEpilogue | app.py:110-120 | The footer fragment directly precedes the six closing lines |
| DocumentProperties.DocumentLinesRoundTrip | app.py:122 | When no part contains a newline, splitting the document at newlines gives back the text of each part, in order |
| HeaderProperties.PreHeaderGiven | app.py:205-206 | The trimmed pre-header text is non-empty iff the text is given and has a non-whitespace character |
| HeaderProperties.PreHeaderRowPresence | app.py:205-217 | A pre-header span appears in the header iff the trimmed pre-header text is non-empty, and every such span holds that trimmed text |
| HeaderProperties.PreHeaderRowFirst | app.py:204-217 | When the trimmed pre-header text is non-empty, the first five header lines are its hidden row: `<tr>`, the hidden cell, the span with the text, `</td>`, `</tr>` |
| HeaderProperties.HeaderTitleFallback | app.py:220-264 | The title is the trimmed header title, or the subject when the header title is missing or all whitespace. An H1 appears iff that title is non-empty (the header title has a non-whitespace character, or the subject is non-empty). Every H1 shows that title at the configured size (28 by default) |
| HeaderProperties.SpacerPrecedesTitle | app.py:249-264 | The `&nbsp;` spacer line is always present. When the title is non-empty, the H1 line comes exactly five lines after it, in the next row |
| HeaderProperties.ImagePrecedesSpacer | app.py:238-254 | When there is an image, the spacer line comes exactly five lines after the image line, in the next row |
| HeaderProperties.TextFollowsTitle | app.py:256-276 | When there is both a title and a header text, the header paragraph comes exactly five lines after the H1, in the next row |
| HeaderProperties.TextFollowsSpacer | app.py:249-276 | When there is a header text but no title, the header paragraph comes exactly five lines after the spacer line, in the next row |
| HeaderProperties.HeaderImagePrecedence | app.py:231-247 | An image appears iff the embedded image or the image URL is non-empty. Its source is the embedded image when that is non-empty, otherwise the URL. Its alt text is the header title, and its width is the configured width (600 by default) |
| HeaderProperties.HeaderTextParagraph | app.py:266-276 | A header paragraph appears iff the header text has a non-whitespace character. It holds the trimmed text with every newline turned into `<br>` (the pieces between the newlines, joined with `<br>`), contains no newline, and uses the configured text size (16 by default) |
| LayerProperties.AlignmentStyle | app.py:143-149 | The lower-cased alignment maps left to `text-align: left;` and right to `text-align: right;`. Anything else, a missing alignment included, maps to `text-align: center;`. Each holds in both directions |
| LayerProperties.AlignmentIgnoresCase | app.py:144 | `Right` and `LEFT` select the right and left styles |
| LayerProperties.LayerImagePresence | app.py:143-157 | The alignment div and the image each appear iff the embedded image is non-empty. The image shows the embedded data, with the layer title (or `Newsletter Image` when there is none) as alt text. The div carries the layer's alignment style |
| LayerProperties.LayerImageFirst | app.py:139-157 | With an embedded image, lines 2 to 4 of the fragment are the div, the image and the div close, right after the layer row and cell open |
| LayerProperties.LayerHeadings | app.py:159-171 | An H2 appears iff the title is non-empty, and an H3 iff the subtitle is non-empty. Each shows its field verbatim in the text color |
| LayerProperties.LayerParagraphText | app.py:173-179 | A paragraph appears iff the content is non-empty. It uses the text color and holds the content with every newline turned into `<br>`, so no newline survives |
| LayerProperties.LayerFrame | app.py:138-188 | Every fragment starts with the layer row and cell, and ends with `</td>`, `</tr>` and the same three-line separator row |
| LayerProperties.LayersLinesAppend | app.py:107-108 | The fragments of a concatenated list of layers are the fragments of the first list followed by those of the second |
| LayerProperties.LayerFragmentInPlace | app.py:107-108 | Layer i's fragment sits between the fragments of the layers before it and those of the layers after it |
| FooterProperties.CopyrightSubstitution | app.py:314-319 | The copyright text is the configured text (or the default, which names the company) with every `{company}` replaced by the company name. The guard in front of the replacement changes nothing. The result equals the pieces between the placeholders joined with the company name, and no piece still holds a placeholder |
| FooterProperties.CopyrightExample | app.py:314-321 | A copyright text `© {company}` with company `Acme` becomes `© Acme` |
| FooterProperties.FooterOptionalLines | app.py:309-326 | The disclaimer, copyright and address lines each appear iff their text is non-empty, and each holds that text. A missing disclaimer or address falls back to the default text, which then appears |
| FooterProperties.FooterLegalOrder | app.py:309-326 | The legal lines come in a fixed order: the disclaimer before the copyright, and both before the address. The disclaimer is the twelfth footer line, right after the footer cell opens. The copyright comes right after the disclaimer, or takes its place when there is none, and the address comes right after those of the two that are there |
| FooterProperties.FooterOpening | app.py:292-307 | The footer opens with the rule table (nine lines), then the footer row and cell in the footer color (`#999999` by default) |
| FooterProperties.FooterLinksLast | app.py:328-339 | The footer always ends with the Unsubscribe link, then the View Online link, both in the footer color with the configured (or placeholder) targets, then `</td>` and `</tr>` |
| Markup.RenderAll | app.py:122 | One text per part, in order: the i-th text is the rendering of the i-th part |
| Text.StripSpec | app.py:205 | The stripped text is a contiguous piece of the input. Everything cut off on either side is whitespace, and the piece neither starts nor ends with whitespace |
| Text.StripEmpty | app.py:206 | Nothing is left after stripping iff the text is all whitespace |
| Text.ReplaceIsJoinOfSplit | app.py:175 | Replacing a pattern equals splitting at it and joining the pieces with the replacement |
| Text.ReplaceRemovesChar | app.py:269 | After replacing a character by a text that does not contain it, the character no longer occurs |
| Text.ReplaceAbsent | app.py:318-319 | Replacing a pattern that does not occur leaves the text unchanged |
| Text.SplitPiecesFree | app.py:318-319 | No piece produced by splitting at a non-empty separator contains that separator |
| Text.JoinOfSplit | app.py:175 | Splitting at a separator and joining with the same separator gives back the text |
| Text.SplitOfJoin | app.py:122 | Joining pieces with a one-character separator that none of them contains, then splitting at it, gives back the pieces |
| Text.Lower | app.py:144 | Same length; every ASCII capital becomes its lower-case letter and every other character is kept; no ASCII capital is left |
| Text.IntToStr | app.py:100 | The text is non-empty, starts with `-` iff the number is negative, and is otherwise all digits, with no leading zero (a lone `0` only for zero) |
| Text.IntToStrRoundTrip | app.py:100 | Parsing the decimal text of a number gives the number back |

## Left out

- `ImageProcessor.convert_to_base64` (app.py:14-55) is not part of this model. It depends on Pillow decoding and re-encoding images and on library base64 encoding. Its result enters the model only as an optional string (`imageBase64`, `headerImageBase64`).
- The Streamlit user interface (`render_sidebar`, `render_header_config`, `render_footer_config`, `render_layer_form`, `main`, app.py:344-758) is not part of this model. It consists of widget input, session state, preview and download.
- `components/html_editor_component.py` is not part of this model. It reads a template file from disk and renders a front-end component.
- A configuration key that is present with the value `None` is not distinguished from a missing key. `dict.get(key, default)` in Python returns `None` then, and the code would render `None` or fail on `.strip()` and `.lower()`. The model gives the default instead.
- Values of the wrong type (a number where a string is expected, a float width) are not modelled. Every text field is a string, and every size and width is an integer.
- Text.Lower: lower-cases only the ASCII letters. Python's `str.lower()` also lower-cases other Unicode letters. This can only matter for an alignment value with non-ASCII capitals, which selects the center style either way.
- The parts are kept as `Line` values and rendered by `Render`. The text each one produces is written out in `Render`, but the properties are stated about the `Line` values. The order, presence and inserted values of the parts are proved. The fixed markup around the inserted values is given by `Render` and is not proved further.
- Nothing is escaped. The inserted values (subject, titles, content, links, colors) go into the markup verbatim, as in the code, so the properties say nothing about well-formed HTML for arbitrary input.
