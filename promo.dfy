/** The promotion-code engine behind `applyPromoCode`: a code is trimmed and
    upper-cased, matched against three rules, and the discounted price is
    floored at 0.50. */
module Promo {
  import opened Js

  datatype Rule = HalfPrice | QuarterOff | FiftyCents

  datatype PromoResult = PromoResult(discountedPrice: real, discountAmount: real, discountMessage: string)

  const InvalidPromoCode := "Invalid promo code"

  /** The lowest price any code can produce, in dollars. */
  const MinPrice: real := 0.5

  /** The three codes, in normalised form. */
  const ValidCodes: set<string> := {"HALFPRICE", "QUARTEROFF", "FIFTYCENTS"}

  /** `promoCode.trim().toUpperCase()` */
  function Normalize(code: string): string
  {
    ToUpperCase(Trim(code))
  }

  /** The rule a normalised code selects, if any. */
  function RuleFor(normalized: string): Option<Rule>
  {
    if normalized == "HALFPRICE" then Some(HalfPrice)
    else if normalized == "QUARTEROFF" then Some(QuarterOff)
    else if normalized == "FIFTYCENTS" then Some(FiftyCents)
    else None
  }

  /** The amount a rule takes off the price. */
  function Discount(rule: Rule, price: real): real
  {
    match rule
    case HalfPrice => price * 0.5
    case QuarterOff => price * 0.25
    case FiftyCents => price - 0.5
  }

  function Message(rule: Rule): string
  {
    match rule
    case HalfPrice => "50% discount applied"
    case QuarterOff => "25% discount applied"
    case FiftyCents => "Price reduced to $0.50"
  }

  /** `applyPromoCode`: fails exactly for codes that do not normalise to one of
      the three valid codes; otherwise the discounted price is the price minus
      the discount, but never below the 0.50 floor. */
  function ApplyPromoCode(code: string, price: real): (r: Result<PromoResult>)
    ensures r.Ok? <==> Normalize(code) in ValidCodes
    ensures r.Err? ==> r.message == InvalidPromoCode
    ensures r.Ok? ==> r.value.discountedPrice == Max(MinPrice, price - r.value.discountAmount)
    ensures r.Ok? ==> r.value.discountedPrice >= MinPrice
  {
    match RuleFor(Normalize(code))
    case None => Err(InvalidPromoCode)
    case Some(rule) =>
      var discount := Discount(rule, price);
      Ok(PromoResult(Max(MinPrice, price - discount), discount, Message(rule)))
  }

  /** HALFPRICE takes half the price off. */
  lemma HalfPriceHalves(code: string, price: real)
    requires Normalize(code) == "HALFPRICE"
    ensures ApplyPromoCode(code, price).Ok?
    ensures ApplyPromoCode(code, price).value.discountAmount == price / 2.0
    ensures ApplyPromoCode(code, price).value.discountedPrice == Max(MinPrice, price / 2.0)
    ensures ApplyPromoCode(code, price).value.discountMessage == "50% discount applied"
  {
  }

  /** QUARTEROFF takes a quarter of the price off. */
  lemma QuarterOffTakesQuarter(code: string, price: real)
    requires Normalize(code) == "QUARTEROFF"
    ensures ApplyPromoCode(code, price).Ok?
    ensures ApplyPromoCode(code, price).value.discountAmount == price / 4.0
    ensures ApplyPromoCode(code, price).value.discountedPrice == Max(MinPrice, price * 3.0 / 4.0)
    ensures ApplyPromoCode(code, price).value.discountMessage == "25% discount applied"
  {
  }

  /** FIFTYCENTS sets the price to exactly 0.50, whatever the price was. */
  lemma FiftyCentsIsFlat(code: string, price: real)
    requires Normalize(code) == "FIFTYCENTS"
    ensures ApplyPromoCode(code, price).Ok?
    ensures ApplyPromoCode(code, price).value.discountAmount == price - 0.5
    ensures ApplyPromoCode(code, price).value.discountedPrice == 0.5
    ensures ApplyPromoCode(code, price).value.discountMessage == "Price reduced to $0.50"
  {
  }

  /** A valid code never raises a price of at least 0.50. */
  lemma DiscountNotAbovePrice(code: string, price: real)
    requires price >= MinPrice
    requires ApplyPromoCode(code, price).Ok?
    ensures ApplyPromoCode(code, price).value.discountedPrice <= price
  {
  }

  /** Below 0.50 every valid code raises the price to 0.50, so the bound above
      needs its precondition. */
  lemma DiscountRaisesSubFloorPrice(code: string, price: real)
    requires price < MinPrice
    requires ApplyPromoCode(code, price).Ok?
    ensures ApplyPromoCode(code, price).value.discountedPrice == MinPrice > price
  {
  }

  /** Surrounding whitespace does not change how a code is treated. */
  lemma IgnoresPadding(before: string, code: string, after: string, price: real)
    requires AllWhitespace(before) && AllWhitespace(after)
    ensures ApplyPromoCode(before + code + after, price) == ApplyPromoCode(code, price)
  {
    TrimIgnoresPadding(before, code, after);
  }

  /** Letter case does not change how a code is treated. */
  lemma IgnoresCase(code: string, price: real)
    ensures ApplyPromoCode(ToUpperCase(code), price) == ApplyPromoCode(code, price)
  {
    TrimUpperCommute(code);
    ToUpperCaseIdempotent(Trim(code));
  }

  /** An unknown code is refused. */
  lemma BogusRejected()
    ensures ApplyPromoCode("bogus", 100.0) == Err(InvalidPromoCode)
  {
    assert Trim("bogus") == "bogus";
    assert ToUpperCase("bogus") == "BOGUS";
  }

  // ---------------------------------------------------------------------------
  // Any spelling of a valid code
  // ---------------------------------------------------------------------------

  /** An independent reference for ASCII letter case: lower-case letters are
      raised, every other character is kept. */
  function AsciiUp(c: char): char
  {
    if 'a' <= c <= 'z' then (c as int - 32) as char else c
  }

  /** Two strings that differ at most in the case of ASCII letters. */
  predicate SameIgnoringAsciiCase(s: string, t: string)
  {
    |s| == |t| && forall i :: 0 <= i < |s| ==> AsciiUp(s[i]) == AsciiUp(t[i])
  }

  /** Strings that differ only in ASCII letter case upper-case to the same string. */
  lemma {:induction false} UpperAgreesOnCaseVariants(s: string, t: string)
    requires SameIgnoringAsciiCase(s, t)
    ensures ToUpperCase(s) == ToUpperCase(t)
    decreases |s|
  {
    if s != [] {
      assert AsciiUp(s[0]) == AsciiUp(t[0]);
      assert UpperOf(s[0]) == UpperOf(t[0]);
      assert SameIgnoringAsciiCase(s[1..], t[1..]) by {
        forall i | 0 <= i < |s[1..]|
          ensures AsciiUp(s[1..][i]) == AsciiUp(t[1..][i])
        {
          assert s[1..][i] == s[i + 1] && t[1..][i] == t[i + 1];
        }
      }
      UpperAgreesOnCaseVariants(s[1..], t[1..]);
    }
  }

  /** Upper-case ASCII strings are their own normalised form. */
  lemma UpperAsciiNormalized(u: string)
    requires UpperAscii(u)
    ensures Normalize(u) == u
  {
    UpperAsciiFixed(u);
    TrimKeepsUnpadded(u);
  }

  /** The three codes are written in upper-case ASCII letters. */
  lemma ValidCodesUpperAscii(valid: string)
    requires valid in ValidCodes
    ensures UpperAscii(valid)
  {
  }

  /** The outcome depends on the code only through its normalised form. */
  lemma SameNormalFormSameOutcome(a: string, b: string, price: real)
    requires Normalize(a) == Normalize(b)
    ensures ApplyPromoCode(a, price) == ApplyPromoCode(b, price)
  {
  }

  /** A trimmed code that differs from an upper-case ASCII string only in
      letter case normalises to that string. */
  lemma NormalizeCaseVariant(code: string, u: string)
    requires UpperAscii(u) && SameIgnoringAsciiCase(Trim(code), u)
    ensures Normalize(code) == u
  {
    UpperAgreesOnCaseVariants(Trim(code), u);
    UpperAsciiFixed(u);
  }

  /** Any lower-case or mixed-case spelling of a valid code, once trimmed, is
      accepted and treated exactly as the code itself. */
  lemma AnyCaseOfValidCode(code: string, valid: string, price: real)
    requires valid in ValidCodes && SameIgnoringAsciiCase(Trim(code), valid)
    ensures ApplyPromoCode(code, price) == ApplyPromoCode(valid, price)
    ensures ApplyPromoCode(code, price).Ok?
  {
    ValidCodesUpperAscii(valid);
    NormalizeCaseVariant(code, valid);
    UpperAsciiNormalized(valid);
    SameNormalFormSameOutcome(code, valid, price);
  }

  /** " halfprice " at 100.00 gives 50.00 with the 50% message. The string
      and the price are parameters pinned by the precondition, so that the
      verifier reasons through the lemmas above rather than by evaluation. */
  lemma PaddedLowerCaseHalfPrice(code: string, price: real)
    requires code == " halfprice " && price == 100.0
    ensures ApplyPromoCode(code, price) == Ok(PromoResult(50.0, 50.0, "50% discount applied"))
  {
    var word := "halfprice";
    assert code == " " + word + " ";
    TrimIgnoresPadding(" ", word, " ");
    TrimKeepsUnpadded(word);
    assert SameIgnoringAsciiCase(Trim(code), "HALFPRICE");
    assert UpperAscii("HALFPRICE");
    NormalizeCaseVariant(code, "HALFPRICE");
    HalfPriceHalves(code, price);
  }

  /** "FiftyCents" is accepted and gives 0.50 for any price. */
  lemma MixedCaseFiftyCents(code: string, price: real)
    requires code == "FiftyCents"
    ensures ApplyPromoCode(code, price) == Ok(PromoResult(0.5, price - 0.5, "Price reduced to $0.50"))
  {
    TrimKeepsUnpadded(code);
    assert SameIgnoringAsciiCase(Trim(code), "FIFTYCENTS");
    assert UpperAscii("FIFTYCENTS");
    NormalizeCaseVariant(code, "FIFTYCENTS");
    FiftyCentsIsFlat(code, price);
  }
}
