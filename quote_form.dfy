/** The two rules the quote form keeps beside the calculator: flipping one add-on, and the
    postcode gate on the Generate button. */
module QuoteForm {
  import opened Catalogue
  import opened Text
  import opened QuoteBuilder

  /** toggleAddon: a copy of the selection with the flag for `k` negated. */
  function ToggleAddon(prev: AddonSelection, k: AddonKey): (next: AddonSelection)
    ensures next.Selected(k) == !prev.Selected(k)
    ensures forall j :: j != k ==> next.Selected(j) == prev.Selected(j)
  {
    match k
    case Edging => prev.(edging := !prev.edging)
    case Skip => prev.(skip := !prev.skip)
    case Drainage => prev.(drainage := !prev.drainage)
    case Steps => prev.(steps := !prev.steps)
  }

  /** Toggling the same add-on twice restores the selection. */
  lemma ToggleTwiceRestores(sel: AddonSelection, k: AddonKey)
    ensures ToggleAddon(ToggleAddon(sel, k), k) == sel
  {
  }

  /** Toggling an add-on adds or removes exactly its own row and leaves the other add-on rows
      as they were; toggling it back gives an identical quote. */
  lemma ToggleFlipsOnlyItsRow(p: QuoteParams, createdAt: string, k: AddonKey, j: AddonKey)
    ensures var rows := AddonItems(AddonOrder, ToggleAddon(p.addons, k));
      (AddonItem(k) in rows <==> !p.addons.Selected(k)) &&
      (j != k ==> (AddonItem(j) in rows <==> p.addons.Selected(j)))
    ensures QuoteOf(p.(addons := ToggleAddon(ToggleAddon(p.addons, k), k)), createdAt) == QuoteOf(p, createdAt)
  {
    AddonRowIffSelected(ToggleAddon(p.addons, k), k);
    AddonRowIffSelected(ToggleAddon(p.addons, k), j);
    ToggleTwiceRestores(p.addons, k);
  }

  const MinPostcodeLength: nat := 4

  /** canGenerate: the trimmed postcode is at least four UTF-16 code units long. */
  function CanGenerate(postcode: string): (ok: bool)
    ensures AllWhitespace(postcode) ==> !ok
    ensures ok ==> |postcode| >= 2
  {
    Utf16Length(Trim(postcode)) >= MinPostcodeLength
  }

  /** For text in the Basic Multilingual Plane (every UK postcode) the gate is simply: at least
      four characters once trimmed. */
  lemma CanGenerateBmp(postcode: string)
    requires forall i :: 0 <= i < |postcode| ==> postcode[i] as int < 0x1_0000
    ensures CanGenerate(postcode) <==> |Trim(postcode)| >= MinPostcodeLength
  {
    BmpTrim(postcode);
    Utf16LengthOfBmp(Trim(postcode));
  }

  /** Trimming keeps the characters inside, so Basic Multilingual Plane text stays so. */
  lemma BmpTrim(s: string)
    requires forall i :: 0 <= i < |s| ==> s[i] as int < 0x1_0000
    ensures forall i :: 0 <= i < |Trim(s)| ==> Trim(s)[i] as int < 0x1_0000
  {
    TrimIsSlice(s);
    var a := TrimOffset(s);
    forall i | 0 <= i < |Trim(s)| ensures Trim(s)[i] as int < 0x1_0000 {
      assert Trim(s)[i] == s[a + i];
    }
  }

  /** Whitespace around the postcode never affects the gate. */
  lemma CanGenerateIgnoresSurroundingWhitespace(w1: string, postcode: string, w2: string)
    requires AllWhitespace(w1) && AllWhitespace(w2)
    ensures CanGenerate(w1 + postcode + w2) == CanGenerate(postcode)
  {
    TrimIgnoresSurroundingWhitespace(w1, postcode, w2);
  }

  /** A postcode of plain characters with no surrounding whitespace passes exactly when it
      has at least four characters. */
  lemma CanGenerateTrimmedBmp(postcode: string)
    requires postcode != [] ==> !IsJsWhitespace(postcode[0]) && !IsJsWhitespace(postcode[|postcode| - 1])
    requires forall i :: 0 <= i < |postcode| ==> postcode[i] as int < 0x1_0000
    ensures CanGenerate(postcode) <==> |postcode| >= MinPostcodeLength
  {
    CanGenerateBmp(postcode);
    TrimKeepsTrimmed(postcode);
    assert |Trim(postcode)| == |postcode|;
  }

  /** "" and "SO5" are refused; "SO50 7DE" is accepted. */
  lemma CanGenerateExamples()
    ensures !CanGenerate("")
    ensures !CanGenerate("SO5")
    ensures CanGenerate("SO50 7DE")
  {
    CanGenerateTrimmedBmp("SO5");
    CanGenerateTrimmedBmp("SO50 7DE");
  }

  /** Padding does not help a short postcode: "  SO5 \t" is refused. */
  lemma CanGeneratePaddedShort()
    ensures !CanGenerate("  SO5 \t")
  {
    assert "  " + "SO5" + " \t" == "  SO5 \t";
    assert AllWhitespace("  ") && AllWhitespace(" \t");
    CanGenerateTrimmedBmp("SO5");
    CanGenerateIgnoresSurroundingWhitespace("  ", "SO5", " \t");
  }

  /** Padding does not hurt a long enough postcode: " SO50 " is accepted. */
  lemma CanGeneratePaddedLong()
    ensures CanGenerate(" SO50 ")
  {
    assert " " + "SO50" + " " == " SO50 ";
    assert AllWhitespace(" ");
    CanGenerateTrimmedBmp("SO50");
    CanGenerateIgnoresSurroundingWhitespace(" ", "SO50", " ");
  }
}
