/** What a layer fragment promises, and how the fragments of a list of layers
    follow one another. */
module LayerProperties {
  import opened Wrappers
  import opened Text
  import opened Markup
  import opened Newsletter

  /** Each kind of content line of a layer comes from its own block. */
  lemma LayerKinds(layer: Layer, color: string)
    ensures forall l :: l in LayerLines(layer, color) ==>
      && (l.AlignDiv? || l.LayerImage? ==> l in LayerImageBlock(layer))
      && (l.LayerTitle? ==> l in LayerTitleLines(layer, color))
      && (l.LayerSubtitle? ==> l in LayerSubtitleLines(layer, color))
      && (l.LayerParagraph? ==> l in LayerContentLines(layer, color))
  {
  }

  /** The lower-cased alignment picks the matching text-align style; anything
      other than left and right, a missing alignment included, centers. */
  lemma AlignmentStyle(layer: Layer)
    ensures var a := Lower(layer.imageAlignment.GetOr(DefaultLayerAlignment));
      && (LayerAlignStyle(layer) == "text-align: left;" <==> a == "left")
      && (LayerAlignStyle(layer) == "text-align: right;" <==> a == "right")
      && (LayerAlignStyle(layer) == "text-align: center;" <==> a != "left" && a != "right")
    ensures layer.imageAlignment.None? ==> LayerAlignStyle(layer) == "text-align: center;"
  {
    var a := Lower(layer.imageAlignment.GetOr(DefaultLayerAlignment));
    assert "text-align: left;"[12] == 'l';
    assert "text-align: right;"[12] == 'r';
    assert "text-align: center;"[12] == 'c';
    if layer.imageAlignment.None? {
      assert a[0] == 'c';
    }
  }

  /** The alignment is matched without regard to the case of ASCII letters. */
  lemma AlignmentIgnoresCase()
    ensures AlignStyle(Lower("Right")) == "text-align: right;"
    ensures AlignStyle(Lower("LEFT")) == "text-align: left;"
  {
    assert Lower("Right") == "right";
    assert Lower("LEFT") == "left";
  }

  /** The image block (div, image, div close) is emitted exactly when the layer
      has an embedded image. The image carries the embedded data and the layer
      title (or "Newsletter Image") as its alt text, and its div the alignment
      style of the layer. */
  lemma LayerImagePresence(layer: Layer, color: string)
    ensures (exists l :: l in LayerLines(layer, color) && l.LayerImage?) <==> Truthy(layer.imageBase64)
    ensures (exists l :: l in LayerLines(layer, color) && l.AlignDiv?) <==> Truthy(layer.imageBase64)
    ensures forall l :: l in LayerLines(layer, color) && l.LayerImage? ==>
      l.src == layer.imageBase64.value && l.alt == layer.title.GetOr(DefaultLayerAlt)
    ensures forall l :: l in LayerLines(layer, color) && l.AlignDiv? ==>
      l.alignStyle == LayerAlignStyle(layer)
  {
    LayerKinds(layer, color);
    if Truthy(layer.imageBase64) {
      var block := LayerImageBlock(layer);
      assert block[0] in LayerLines(layer, color);
      assert block[1] in LayerLines(layer, color);
    }
  }

  /** The image block, when there is one, comes right after the layer's cell opens. */
  lemma LayerImageFirst(layer: Layer, color: string)
    requires Truthy(layer.imageBase64)
    ensures LayerLines(layer, color)[2..5]
      == [AlignDiv(LayerAlignStyle(layer)), LayerImage(layer.imageBase64.value, layer.title.GetOr(DefaultLayerAlt)), DivClose]
  {
    var rest := LayerTitleLines(layer, color) + LayerSubtitleLines(layer, color)
                + LayerContentLines(layer, color) + [TdClose, TrClose] + SeparatorRow;
    assert LayerLines(layer, color) == [Tr, LayerCell] + LayerImageBlock(layer) + rest;
  }

  /** The heading, subheading and paragraph each appear exactly when their field
      is non-empty, in the text color, and the heading and subheading show their
      field verbatim. */
  lemma LayerHeadings(layer: Layer, color: string)
    ensures (exists l :: l in LayerLines(layer, color) && l.LayerTitle?) <==> Truthy(layer.title)
    ensures forall l :: l in LayerLines(layer, color) && l.LayerTitle? ==>
      l == LayerTitle(color, layer.title.value)
    ensures (exists l :: l in LayerLines(layer, color) && l.LayerSubtitle?) <==> Truthy(layer.subtitle)
    ensures forall l :: l in LayerLines(layer, color) && l.LayerSubtitle? ==>
      l == LayerSubtitle(color, layer.subtitle.value)
  {
    LayerKinds(layer, color);
    if Truthy(layer.title) {
      assert LayerTitle(color, layer.title.value) in LayerLines(layer, color);
    }
    if Truthy(layer.subtitle) {
      assert LayerSubtitle(color, layer.subtitle.value) in LayerLines(layer, color);
    }
  }

  /** The paragraph appears exactly when the content is non-empty. It holds the
      content with every newline turned into a `<br>` tag, so no newline is left
      in it, and nothing else of the content is changed. */
  lemma LayerParagraphText(layer: Layer, color: string)
    ensures (exists l :: l in LayerLines(layer, color) && l.LayerParagraph?) <==> Truthy(layer.content)
    ensures forall l :: l in LayerLines(layer, color) && l.LayerParagraph? ==>
      && l.color == color
      && l.text == Join(Split(layer.content.value, "\n"), "<br>")
      && '\n' !in l.text
  {
    LayerKinds(layer, color);
    if Truthy(layer.content) {
      ReplaceIsJoinOfSplit(layer.content.value, "\n", "<br>");
      ReplaceRemovesChar(layer.content.value, '\n', "<br>");
      assert LayerParagraph(color, NewlinesToBreaks(layer.content.value)) in LayerLines(layer, color);
    }
  }

  /** Every layer fragment opens its row and cell, and ends by closing them and
      emitting the same three-line separator row. */
  lemma LayerFrame(layer: Layer, color: string)
    ensures |LayerLines(layer, color)| >= 7
    ensures LayerLines(layer, color)[..2] == [Tr, LayerCell]
    ensures LayerLines(layer, color)[|LayerLines(layer, color)| - 5..] == [TdClose, TrClose] + SeparatorRow
  {
    var body := LayerImageBlock(layer) + LayerTitleLines(layer, color)
                + LayerSubtitleLines(layer, color) + LayerContentLines(layer, color);
    var lines := LayerLines(layer, color);
    assert lines == [Tr, LayerCell] + body + ([TdClose, TrClose] + SeparatorRow);
  }

  // ---------------------------------------------------------------------------
  // The list of layers
  // ---------------------------------------------------------------------------

  /** The fragments of two lists of layers, one after the other. */
  lemma {:induction false} LayersLinesAppend(a: seq<Layer>, b: seq<Layer>, color: string)
    ensures LayersLines(a + b, color) == LayersLines(a, color) + LayersLines(b, color)
    decreases |b|
  {
    if b == [] {
      assert a + b == a;
    } else {
      var front := b[..|b| - 1];
      var last := b[|b| - 1];
      LayersLinesAppend(a, front, color);
      assert (a + b)[..|a + b| - 1] == a + front;
      assert (a + b)[|a + b| - 1] == last;
      AppendAssoc(LayersLines(a, color), LayersLines(front, color), LayerLines(last, color));
    }
  }

  /** Layer i's fragment sits between the fragments of the layers before it and
      those of the layers after it: one fragment per layer, in list order. */
  lemma LayerFragmentInPlace(layers: seq<Layer>, i: nat, color: string)
    requires i < |layers|
    ensures LayersLines(layers, color)
      == LayersLines(layers[..i], color) + LayerLines(layers[i], color) + LayersLines(layers[i + 1..], color)
  {
    assert layers == layers[..i] + [layers[i]] + layers[i + 1..];
    LayersLinesAppend(layers[..i] + [layers[i]], layers[i + 1..], color);
    LayersLinesAppend(layers[..i], [layers[i]], color);
    assert [layers[i]][..0] == [];
  }
}
