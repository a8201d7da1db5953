/** Which texts are placeholders and what they name, said of the characters alone. */
module PlaceholderTexts {
  import opened Options
  import opened Chain
  import opened LedgerOrder
  import opened LedgerView
  import opened Placeholders
  import opened PlaceholderOrder

  const DIGITS := "0123456789"
  const HEX_DIGITS := "0123456789abcdefABCDEF"

  predicate AllIn(s: string, alphabet: string) {
    forall i :: 0 <= i < |s| ==> s[i] in alphabet
  }

  /** Hex characters of a hash, a number sign, and at least one digit. */
  predicate IsRefText(h: string, d: string) {
    |h| == 64 && AllIn(h, HEX_DIGITS) && d != "" && AllIn(d, DIGITS)
  }

  predicate IsCredentialText(h: string) {
    |h| == 56 && AllIn(h, HEX_DIGITS)
  }

  function RefText(prefix: string, h: string, d: string): string {
    prefix + h + "#" + d + "__"
  }

  function CredentialText(h: string): string {
    "__WDRL_IDX:" + h + "__"
  }

  /** The whole text is the prefix, a hash, a number sign, digits and two underscores; the hash is read in lower case. */
  ghost predicate IsRefForm(prefix: string, text: string, ref: OutPoint) {
    exists h, d :: IsRefText(h, d) && text == RefText(prefix, h, d) && ref == OutPoint(Lower(h), Decimal(d))
  }

  ghost predicate IsCredentialForm(text: string, credential: string) {
    exists h :: IsCredentialText(h) && text == CredentialText(h) && credential == Lower(h)
  }

  /** The text has the form that names the placeholder. */
  ghost predicate Denotes(text: string, p: Placeholder) {
    match p
    case InputIdx(ref) => IsRefForm("__INPUT_IDX:", text, ref)
    case RefIdx(ref) => IsRefForm("__REF_IDX:", text, ref)
    case WdrlIdx(c) => IsCredentialForm(text, c)
  }

  lemma HexChars(c: char)
    ensures IsHexChar(c) <==> c in HEX_DIGITS
    ensures '0' <= c <= '9' <==> c in DIGITS
  {
    var n := c as int;
    assert '0' as int == 48 && 'A' as int == 65 && 'a' as int == 97;
    if '0' <= c <= '9' {
      assert DIGITS[n - 48] == c && HEX_DIGITS[n - 48] == c;
    } else if 'a' <= c <= 'f' {
      assert HEX_DIGITS[n - 97 + 10] == c;
    } else if 'A' <= c <= 'F' {
      assert HEX_DIGITS[n - 65 + 16] == c;
    }
  }

  lemma SameClasses(h: string)
    ensures AllHex(h) <==> AllIn(h, HEX_DIGITS)
    ensures IsDigits(h) <==> h != "" && AllIn(h, DIGITS)
  {
    hide IsHexChar;
    forall i | 0 <= i < |h|
      ensures IsHexChar(h[i]) <==> h[i] in HEX_DIGITS
      ensures '0' <= h[i] <= '9' <==> h[i] in DIGITS
    {
      HexChars(h[i]);
    }
  }

  // ---------------------------------------------------------------- one form at a time

  lemma RefTextParts(prefix: string, h: string, d: string)
    requires |h| == 64
    ensures
      var text, p := RefText(prefix, h, d), |prefix|;
      && |text| == p + 65 + |d| + 2
      && text[..p] == prefix && text[p..p + 64] == h && text[p + 64] == '#'
      && text[p + 65..|text| - 2] == d && text[|text| - 2..] == "__"
  {
  }

  /** The reference a text holds after the prefix, exactly when it has that form. */
  lemma ParseRefIff(prefix: string, text: string, ref: OutPoint)
    ensures ParseRef(prefix, text) == Some(ref) <==> IsRefForm(prefix, text, ref)
  {
    hide AllHex, IsDigits, AllIn, RefText, Lower, Decimal;
    if ParseRef(prefix, text) == Some(ref) {
      var p := |prefix|;
      var h, d := text[p..p + 64], text[p + 65..|text| - 2];
      SameClasses(h);
      SameClasses(d);
      Rejoined(prefix, text);
      assert IsRefText(h, d);
    }
    if IsRefForm(prefix, text, ref) {
      var h, d :| IsRefText(h, d) && text == RefText(prefix, h, d) && ref == OutPoint(Lower(h), Decimal(d));
      RefTextParts(prefix, h, d);
      SameClasses(h);
      SameClasses(d);
    }
  }

  lemma Rejoined(prefix: string, text: string)
    requires |text| >= |prefix| + 68 && text[..|prefix|] == prefix && text[|prefix| + 64] == '#' && text[|text| - 2..] == "__"
    ensures text == RefText(prefix, text[|prefix|..|prefix| + 64], text[|prefix| + 65..|text| - 2])
  {
    var p := |prefix|;
    assert text == text[..p] + text[p..p + 64] + [text[p + 64]] + text[p + 65..|text| - 2] + text[|text| - 2..];
  }

  lemma ParseCredentialIff(text: string, c: string)
    ensures ParseCredential("__WDRL_IDX:", text) == Some(c) <==> IsCredentialForm(text, c)
  {
    hide AllHex, AllIn, Lower;
    if ParseCredential("__WDRL_IDX:", text) == Some(c) {
      var h := text[11..67];
      SameClasses(h);
      assert text == text[..11] + h + text[67..];
      assert IsCredentialText(h) && text == CredentialText(h);
    }
    if IsCredentialForm(text, c) {
      var h :| IsCredentialText(h) && text == CredentialText(h) && c == Lower(h);
      SameClasses(h);
      assert text[..11] == "__WDRL_IDX:" && text[11..67] == h && text[67..] == "__";
    }
  }

  /** The three forms differ in their third character. */
  lemma FormsDiffer(text: string, prefix: string, other: string)
    requires |prefix| > 2 && |other| > 2 && prefix[2] != other[2]
    requires |text| >= |prefix| && text[..|prefix|] == prefix
    ensures |text| < |other| || text[..|other|] != other
  {
    assert text[..|prefix|][2] == text[2];
  }

  lemma NotInputForm(text: string)
    ensures (|text| >= 10 && text[..10] == "__REF_IDX:") || (|text| >= 11 && text[..11] == "__WDRL_IDX:") ==> ParseRef("__INPUT_IDX:", text).None?
    ensures |text| >= 11 && text[..11] == "__WDRL_IDX:" ==> ParseRef("__REF_IDX:", text).None?
  {
    if |text| >= 10 && text[..10] == "__REF_IDX:" {
      FormsDiffer(text, "__REF_IDX:", "__INPUT_IDX:");
    }
    if |text| >= 11 && text[..11] == "__WDRL_IDX:" {
      FormsDiffer(text, "__WDRL_IDX:", "__INPUT_IDX:");
      FormsDiffer(text, "__WDRL_IDX:", "__REF_IDX:");
    }
  }

  // ---------------------------------------------------------------- the theorem

  /** A text is read as a placeholder exactly when it has its form; every other text is no placeholder. */
  lemma ParseIff(text: string, p: Placeholder)
    ensures Parse(text) == Some(p) <==> Denotes(text, p)
  {
    NotInputForm(text);
    match p
    case InputIdx(ref) => ParseRefIff("__INPUT_IDX:", text, ref);
    case RefIdx(ref) =>
      ParseRefIff("__REF_IDX:", text, ref);
      assert ParseRef("__REF_IDX:", text).Some? ==> text[..10] == "__REF_IDX:";
    case WdrlIdx(c) =>
      ParseCredentialIff(text, c);
      assert ParseCredential("__WDRL_IDX:", text).Some? ==> text[..11] == "__WDRL_IDX:";
    hide IsRefForm, IsCredentialForm, ParseRef, ParseCredential;
  }

  // ---------------------------------------------------------------- decimal numbers

  function Digits(n: nat): string {
    if n < 10 then [DIGITS[n]] else Digits(n / 10) + [DIGITS[n % 10]]
  }

  lemma DigitValue(n: nat)
    requires n < 10
    ensures '0' <= DIGITS[n] <= '9' && DIGITS[n] as int - '0' as int == n
  {
  }

  /** The decimal rendering of a number reads back as the number. */
  lemma {:induction false} DigitsReadBack(n: nat)
    ensures AllIn(Digits(n), DIGITS) && Digits(n) != "" && Decimal(Digits(n)) == n
  {
    DigitValue(n % 10);
    if n < 10 {
      assert Digits(n)[..0] == "";
    } else {
      DigitsReadBack(n / 10);
      assert Digits(n)[..|Digits(n)| - 1] == Digits(n / 10);
    }
  }

  /** Leading zeros do not count. */
  lemma {:induction false} LeadingZero(d: string)
    ensures Decimal("0" + d) == Decimal(d)
  {
    if d == "" {
      assert "0"[..0] == "";
    } else {
      LeadingZero(d[..|d| - 1]);
      assert ("0" + d)[..|d|] == "0" + d[..|d| - 1];
    }
  }

  /** The text that names an input by its outpoint is read as that outpoint. */
  lemma RenderedInput(ref: OutPoint)
    requires |ref.txHash| == 64 && AllIn(ref.txHash, HEX_DIGITS) && Lower(ref.txHash) == ref.txHash
    ensures Parse(RefText("__INPUT_IDX:", ref.txHash, Digits(ref.outputIndex))) == Some(InputIdx(ref))
    ensures Parse(RefText("__REF_IDX:", ref.txHash, Digits(ref.outputIndex))) == Some(RefIdx(ref))
  {
    DigitsReadBack(ref.outputIndex);
    var h, d := ref.txHash, Digits(ref.outputIndex);
    assert IsRefText(h, d) && ref == OutPoint(Lower(h), Decimal(d));
    ParseIff(RefText("__INPUT_IDX:", h, d), InputIdx(ref));
    ParseIff(RefText("__REF_IDX:", h, d), RefIdx(ref));
    hide Parse, RefText;
  }

  // ---------------------------------------------------------------- the stored position

  /**
   The text `__INPUT_IDX:h#d__`, once resolved, is the position under which a crawl stores the regular input
   with that hash and index.
   */
  lemma ResolvedIndexIsStored(inputs: seq<Input>, h: string, d: string, ctx: Context)
    requires forall i :: i in inputs ==> IsHash(i.source.txHash)
    requires ctx.inputs == SortInputsLikeBuildooor(Sources(Filter(inputs, IsRegular()))) && IsRefText(h, d)
    ensures
      var stored, ref := LedgerInputOrder(inputs), OutPoint(Lower(h), Decimal(d));
      match PositionOf(RefText("__INPUT_IDX:", h, d), ctx)
      case Done(position) =>
        position.Some? && 0 <= position.value < |stored| && stored[position.value].source == ref
        && !stored[position.value].isCollateral && !stored[position.value].isReference
      case Failed(_) => forall i :: 0 <= i < |stored| && stored[i].source == ref ==> stored[i].isCollateral || stored[i].isReference
  {
    hide Parse, SortBy, Filter, SortInputsLikeBuildooor, LedgerInputOrder, RefText, IsRefText, Decimal, Lower, AllIn, IsHash;
    var text := RefText("__INPUT_IDX:", h, d);
    var ref := OutPoint(Lower(h), Decimal(d));
    assert IsRefForm("__INPUT_IDX:", text, ref);
    ParseIff(text, InputIdx(ref));
    KnownIff(text, ctx);
    if PositionOf(text, ctx).Done? {
      PositionIs(text, ctx);
    }
    PositionsCoincide(inputs);
    StoredAmong(LedgerInputOrder(inputs), ctx.inputs, ref);
    hide Denotes, IsRefForm, Sources;
  }

  /** The leading regular inputs are the only ones with their outpoints in the list. */
  lemma StoredAmong(stored: seq<Input>, built: seq<OutPoint>, ref: OutPoint)
    requires |built| <= |stored| && built == Sources(stored[..|built|])
    requires forall i :: 0 <= i < |stored| ==> (IsRegular()(stored[i]) <==> i < |built|)
    ensures ref !in built ==> forall i :: 0 <= i < |stored| && stored[i].source == ref ==> stored[i].isCollateral || stored[i].isReference
  {
    forall i | 0 <= i < |stored| && stored[i].source == ref && IsRegular()(stored[i])
      ensures ref in built
    {
      assert built[i] == stored[i].source;
    }
  }
}
