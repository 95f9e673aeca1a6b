/** What the footer fragment promises: the placeholder substitution in the
    copyright text, the optional legal lines and the links that close it. */
module FooterProperties {
  import opened Wrappers
  import opened Text
  import opened Markup
  import opened Newsletter

  /** The guard in front of the substitution changes nothing: the copyright text
      is the configured (or default) text with every placeholder replaced by
      the company name, that is, the pieces between the placeholders joined
      with the company name. No piece holds a placeholder, so none is left
      unreplaced. */
  lemma CopyrightSubstitution(f: FooterConfig)
    ensures Copyright(f) == Replace(RawCopyright(f), CompanyPlaceholder, CompanyName(f))
    ensures Copyright(f) == Join(Split(RawCopyright(f), CompanyPlaceholder), CompanyName(f))
    ensures forall i :: 0 <= i < |Split(RawCopyright(f), CompanyPlaceholder)| ==>
      !Occurs(Split(RawCopyright(f), CompanyPlaceholder)[i], CompanyPlaceholder)
  {
    SplitPiecesFree(RawCopyright(f), CompanyPlaceholder);
    var c := RawCopyright(f);
    if !(c != "" && Occurs(c, CompanyPlaceholder)) {
      if c != "" {
        ReplaceAbsent(c, CompanyPlaceholder, CompanyName(f));
      }
    }
    ReplaceIsJoinOfSplit(c, CompanyPlaceholder, CompanyName(f));
  }

  /** A configured copyright line with a placeholder names the company. */
  lemma CopyrightExample()
    ensures var f := FooterConfig(None, None, Some("Acme"), Some("\U{A9} {company}"), None, None, None);
      Copyright(f) == "\U{A9} Acme"
  {
    var pat := CompanyPlaceholder;
    var s := "\U{A9} {company}";
    assert !(pat <= s);
    assert !(pat <= s[1..]);
    assert pat <= s[2..];
    assert s[2..][|pat|..] == [];
    assert Replace(s[2..], pat, "Acme") == "Acme";
    assert Replace(s, pat, "Acme") == "\U{A9} Acme";
  }

  lemma FooterKinds(f: FooterConfig)
    ensures forall l :: l in FooterLines(f) ==>
      && (l.DisclaimerLine? ==> Disclaimer(f) != "" && l == DisclaimerLine(Disclaimer(f)))
      && (l.CopyrightLine? ==> Copyright(f) != "" && l == CopyrightLine(Copyright(f)))
      && (l.AddressLine? ==> Address(f) != "" && l == AddressLine(Address(f)))
  {
  }

  /** The disclaimer, copyright and address lines each appear exactly when
      their text is non-empty; a missing disclaimer or address falls back to
      the default text, which appears. */
  lemma FooterOptionalLines(f: FooterConfig)
    ensures (exists l :: l in FooterLines(f) && l.DisclaimerLine?) <==> Disclaimer(f) != ""
    ensures (exists l :: l in FooterLines(f) && l.CopyrightLine?) <==> Copyright(f) != ""
    ensures (exists l :: l in FooterLines(f) && l.AddressLine?) <==> Address(f) != ""
    ensures forall l :: l in FooterLines(f) ==>
      && (l.DisclaimerLine? ==> l.text == Disclaimer(f))
      && (l.CopyrightLine? ==> l.text == Copyright(f))
      && (l.AddressLine? ==> l.text == Address(f))
    ensures f.disclaimerText.None? ==> DisclaimerLine(DefaultDisclaimer) in FooterLines(f)
    ensures f.address.None? ==> AddressLine(DefaultAddress) in FooterLines(f)
  {
    FooterKinds(f);
    var lines := FooterLines(f);
    var text := FooterTextLines(f);
    assert forall l :: l in text ==> l in lines;
    if Disclaimer(f) != "" {
      assert text[0] == DisclaimerLine(Disclaimer(f));
    }
    if Copyright(f) != "" {
      assert CopyrightLine(Copyright(f)) in text;
    }
    if Address(f) != "" {
      assert text[|text| - 1] == AddressLine(Address(f));
    }
    assert DefaultDisclaimer != "";
    assert DefaultAddress != "";
  }

  /** One when the legal line for `text` is there, zero when it is left out. */
  function Present(text: string): (r: nat)
    ensures r <= 1
    ensures r == 1 <==> text != ""
  {
    if text != "" then 1 else 0
  }

  /** Where each legal line sits among the legal lines: the disclaimer first,
      the copyright after the disclaimer, the address after both. */
  lemma FooterTextPositions(f: FooterConfig)
    ensures |FooterTextLines(f)| == Present(Disclaimer(f)) + Present(Copyright(f)) + Present(Address(f))
    ensures forall j :: 0 <= j < |FooterTextLines(f)| ==>
      && (FooterTextLines(f)[j].DisclaimerLine? ==> j == 0)
      && (FooterTextLines(f)[j].CopyrightLine? ==> j == Present(Disclaimer(f)))
      && (FooterTextLines(f)[j].AddressLine? ==> j == Present(Disclaimer(f)) + Present(Copyright(f)))
  {
  }

  /** The legal lines come in a fixed order: the disclaimer before the
      copyright, and both before the address. Each sits at a fixed place after
      the eleven opening lines, counting only the lines that are there. */
  lemma FooterLegalOrder(f: FooterConfig)
    ensures forall i :: 0 <= i < |FooterLines(f)| ==>
      && (FooterLines(f)[i].DisclaimerLine? ==> i == 11)
      && (FooterLines(f)[i].CopyrightLine? ==> i == 11 + Present(Disclaimer(f)))
      && (FooterLines(f)[i].AddressLine? ==> i == 11 + Present(Disclaimer(f)) + Present(Copyright(f)))
    ensures forall i, j ::
      0 <= i < |FooterLines(f)| && 0 <= j < |FooterLines(f)|
      && FooterLines(f)[i].DisclaimerLine? && FooterLines(f)[j].CopyrightLine?
      ==> i < j
    ensures forall i, j ::
      0 <= i < |FooterLines(f)| && 0 <= j < |FooterLines(f)|
      && FooterLines(f)[i].DisclaimerLine? && FooterLines(f)[j].AddressLine?
      ==> i < j
    ensures forall i, j ::
      0 <= i < |FooterLines(f)| && 0 <= j < |FooterLines(f)|
      && FooterLines(f)[i].CopyrightLine? && FooterLines(f)[j].AddressLine?
      ==> i < j
  {
    var lines := FooterLines(f);
    var front := FooterRuleRows + [Tr, FooterCell(FooterColor(f))];
    var text := FooterTextLines(f);
    var back := FooterLinks(f) + [TdClose, TrClose];
    AppendAssoc(front + text, FooterLinks(f), [TdClose, TrClose]);
    assert lines == front + text + back;
    FooterTextPositions(f);
    FooterKinds(f);
    forall i | 0 <= i < |lines|
      ensures lines[i].DisclaimerLine? ==> i == 11
      ensures lines[i].CopyrightLine? ==> i == 11 + Present(Disclaimer(f))
      ensures lines[i].AddressLine? ==> i == 11 + Present(Disclaimer(f)) + Present(Copyright(f))
    {
      if i < 11 {
        assert lines[i] == front[i];
      } else if i < 11 + |text| {
        assert lines[i] == text[i - 11];
      } else {
        assert lines[i] == back[i - 11 - |text|];
      }
    }
  }

  /** The footer opens with the rule table and the footer cell. */
  lemma FooterOpening(f: FooterConfig)
    ensures FooterLines(f)[..11]
      == [Tr, RuleCell, RuleTable, Tr, RuleLine, TrClose, TableClose, TdClose, TrClose, Tr, FooterCell(FooterColor(f))]
  {
  }

  /** The footer always ends with the Unsubscribe link, then the View Online
      link, both in the footer color and with the configured (or placeholder)
      targets, and then closes its cell and row. */
  lemma FooterLinksLast(f: FooterConfig)
    ensures var lines := FooterLines(f);
      lines[|lines| - 4..] == [
        UnsubscribeLink(f.unsubscribeLink.GetOr(DefaultUnsubscribeLink), FooterColor(f)),
        ViewOnlineLink(f.viewOnlineLink.GetOr(DefaultViewOnlineLink), FooterColor(f)),
        TdClose, TrClose]
  {
    var front := FooterRuleRows + [Tr, FooterCell(FooterColor(f))] + FooterTextLines(f);
    assert FooterLines(f) == front + (FooterLinks(f) + [TdClose, TrClose]);
  }
}
