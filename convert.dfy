/**
 * Turning raw gift ideas into the recommendation cards: the shopping links
 * (`generateShoppingLinks`, src/services/aiService.ts:335-341), the mapping
 * inside `generateGiftRecommendations` (:353-371) and the fixed fallback list
 * (`getFallbackRecommendations`, :387-439).
 *
 * `encodeURIComponent` is the parameter `encode`: nothing is assumed about it.
 */
module Convert {
  import opened Wrappers
  import opened Text
  import opened Prices
  import opened Gifts

  const AmazonSearch := "https://www.amazon.in/s?k="
  const FlipkartSearch := "https://www.flipkart.com/search?q="
  const ImageSearch := "https://images.unsplash.com/400x300/?"

  datatype ShoppingLinks = ShoppingLinks(amazonLink: string, flipkartLink: string)

  /** `generateShoppingLinks`: the two stores' search pages for the encoded product name. */
  function LinksFor(name: string, encode: string -> string): (links: ShoppingLinks)
    ensures |links.amazonLink| >= |AmazonSearch| && links.amazonLink[..|AmazonSearch|] == AmazonSearch && links.amazonLink[|AmazonSearch|..] == encode(name)
    ensures |links.flipkartLink| >= |FlipkartSearch| && links.flipkartLink[..|FlipkartSearch|] == FlipkartSearch && links.flipkartLink[|FlipkartSearch|..] == encode(name)
  {
    var q := encode(name);
    ShoppingLinks(AmazonSearch + q, FlipkartSearch + q)
  }

  /** Two names whose encodings differ get different links at both stores. */
  lemma LinksDistinguishNames(a: string, b: string, encode: string -> string)
    requires encode(a) != encode(b)
    ensures LinksFor(a, encode).amazonLink != LinksFor(b, encode).amazonLink
    ensures LinksFor(a, encode).flipkartLink != LinksFor(b, encode).flipkartLink
  {
    PrefixCancel(AmazonSearch, encode(a), encode(b));
    PrefixCancel(FlipkartSearch, encode(a), encode(b));
  }

  /** Equal texts with a common prefix have equal remainders. */
  lemma PrefixCancel(p: string, x: string, y: string)
    ensures p + x == p + y ==> x == y
  {
    if p + x == p + y {
      assert x == (p + x)[|p|..];
      assert y == (p + y)[|p|..];
    }
  }

  /** The price shown when the idea gives none, and the text the numeric price is read from then. */
  const DefaultDisplayPrice: string := [Rupee] + "2,000"
  const DefaultPriceText: string := [Rupee] + "2000"

  /** The id `ai-gift-${index + 1}`. */
  function ConvertedId(index: nat): string { "ai-gift-" + NatToString(index + 1) }

  /** The card for the idea at position `index` of the generated list. */
  function ConvertGift(g: RawGift, index: nat, request: GiftRequest, encode: string -> string): GiftRecommendation
  {
    var links := LinksFor(g.name, encode);
    GiftRecommendation(
      ConvertedId(index),
      g.name,
      OrElse(g.description, "A wonderful " + ToLower(g.name) + " perfect for your " + request.relationship),
      OrElse(g.estimatedPrice, DefaultDisplayPrice),
      OrElse(g.category, "General"),
      OrElse(g.reason, "AI-recommended based on their interests in " + request.interests +
                       " and the " + request.occasion + " occasion"),
      ImageSearch + encode(g.name),
      links.amazonLink,
      links.flipkartLink,
      ExtractNumericPrice(OrElse(g.estimatedPrice, DefaultPriceText)),
      95 - 10 * index,
      InterestList(request.interests))
  }

  /** `ollamaGifts.map(...)`: one card per idea, in the same order. */
  function ConvertAll(gifts: seq<RawGift>, request: GiftRequest, encode: string -> string): (cards: seq<GiftRecommendation>)
    ensures |cards| == |gifts|
    ensures forall i :: 0 <= i < |gifts| ==> cards[i] == ConvertGift(gifts[i], i, request, encode)
  {
    seq(|gifts|, i requires 0 <= i < |gifts| => ConvertGift(gifts[i], i, request, encode))
  }

  /** Order, ids, relevance and links of the converted list. */
  lemma ConvertAllShape(gifts: seq<RawGift>, request: GiftRequest, encode: string -> string)
    ensures var cards := ConvertAll(gifts, request, encode);
      |cards| == |gifts| &&
      forall i :: 0 <= i < |cards| ==>
        cards[i].name == gifts[i].name &&
        cards[i].id == ConvertedId(i) &&
        cards[i].relevance == 95 - 10 * i &&
        cards[i].amazonLink == AmazonSearch + encode(gifts[i].name) &&
        cards[i].flipkartLink == FlipkartSearch + encode(gifts[i].name) &&
        cards[i].tags == InterestList(request.interests)
  {
  }

  /** No two positions get the same id. */
  lemma ConvertedIdsDistinct(i: nat, j: nat)
    requires i != j
    ensures ConvertedId(i) != ConvertedId(j)
  {
    PrefixCancel("ai-gift-", NatToString(i + 1), NatToString(j + 1));
    NatToStringInjective(i + 1, j + 1);
  }

  /** Relevance falls strictly with position. */
  lemma ConvertAllRelevanceDecreasing(gifts: seq<RawGift>, request: GiftRequest, encode: string -> string)
    ensures var cards := ConvertAll(gifts, request, encode);
      forall i, j :: 0 <= i < j < |cards| ==> cards[i].relevance > cards[j].relevance
  {
  }

  lemma FormatTwoThousand()
    ensures FormatIndian(2000) == "2,000"
  {
    assert GroupPairs(2) == "2";
    assert Pad3(0) == "000";
  }

  lemma DecimalTwoThousand()
    ensures NatToString(2000) == "2000"
  {
    assert NatToString(2) == "2";
    assert NatToString(20) == "2" + "0";
    assert NatToString(200) == "20" + "0";
  }

  /** The two default price texts both read back as 2000. */
  lemma DefaultPricesReadBack()
    ensures ExtractNumericPrice(DefaultDisplayPrice) == Num(2000)
    ensures ExtractNumericPrice(DefaultPriceText) == Num(2000)
  {
    FormatTwoThousand();
    ExtractOfIndianPrice(2000);
    DecimalTwoThousand();
    ExtractOfPriceTag(2000);
  }

  /** An idea without a price is shown at "₹2,000" and counted as 2000. */
  lemma ConvertMissingPrice(g: RawGift, index: nat, request: GiftRequest, encode: string -> string)
    requires g.estimatedPrice.None? || g.estimatedPrice == Some("")
    ensures ConvertGift(g, index, request, encode).price == DefaultDisplayPrice
    ensures ConvertGift(g, index, request, encode).numericPrice == Num(2000)
  {
    DefaultPricesReadBack();
  }

  /** Every converted card's numeric price is the number its displayed price reads as. */
  lemma ConvertAllPricesAgree(gifts: seq<RawGift>, request: GiftRequest, encode: string -> string)
    ensures var cards := ConvertAll(gifts, request, encode);
      forall i :: 0 <= i < |cards| ==> cards[i].numericPrice == ExtractNumericPrice(cards[i].price)
  {
    DefaultPricesReadBack();
  }

  // ---------------------------------------------------------------------------
  // The fixed fallback list

  datatype FallbackGift = FallbackGift(name: string, description: string, category: string, basePrice: nat)

  const FallbackGifts: seq<FallbackGift> := [
    FallbackGift("Personalized Gift Box", "Curated collection of items tailored to their interests", "Personalized", 2500),
    FallbackGift("Experience Voucher", "Memorable experience they can enjoy and cherish", "Experiences", 3000),
    FallbackGift("Premium Subscription Box", "Monthly delivery of items matching their hobbies", "Subscriptions", 1500),
    FallbackGift("Artisan Craft Collection", "Handmade items supporting local artisans", "Handmade", 2000),
    FallbackGift("Wellness Care Package", "Self-care items for relaxation and well-being", "Wellness", 2800)
  ]

  /** The id `fallback-${index + 1}`. */
  function FallbackId(index: nat): string { "fallback-" + NatToString(index + 1) }

  /** No two fallback positions get the same id. */
  lemma FallbackIdsDistinct(i: nat, j: nat)
    requires i != j
    ensures FallbackId(i) != FallbackId(j)
  {
    PrefixCancel("fallback-", NatToString(i + 1), NatToString(j + 1));
    NatToStringInjective(i + 1, j + 1);
  }

  /** The card for the fallback gift at position `index`. */
  function FallbackCard(f: FallbackGift, index: nat, request: GiftRequest, encode: string -> string): GiftRecommendation
  {
    var links := LinksFor(f.name, encode);
    GiftRecommendation(
      FallbackId(index),
      f.name,
      f.description,
      [Rupee] + FormatIndian(f.basePrice),
      f.category,
      "Carefully selected based on your preferences for a " + IntToString(request.age) + "-year-old " + request.relationship,
      ImageSearch + encode(f.name),
      links.amazonLink,
      links.flipkartLink,
      Num(f.basePrice),
      80 - 10 * index,
      InterestList(request.interests))
  }

  /** `getFallbackRecommendations`: the five fixed gifts, whatever the request. */
  function Fallback(request: GiftRequest, encode: string -> string): (cards: seq<GiftRecommendation>)
    ensures |cards| == 5
    ensures forall i :: 0 <= i < 5 ==> cards[i] == FallbackCard(FallbackGifts[i], i, request, encode)
  {
    seq(5, i requires 0 <= i < 5 => FallbackCard(FallbackGifts[i], i, request, encode))
  }

  /** Ids, prices and relevance of the fallback list; the displayed price reads back as the numeric one. */
  lemma FallbackShape(request: GiftRequest, encode: string -> string)
    ensures var cards := Fallback(request, encode);
      forall i :: 0 <= i < 5 ==>
        cards[i].id == FallbackId(i) &&
        cards[i].name == FallbackGifts[i].name &&
        cards[i].numericPrice == Num(FallbackGifts[i].basePrice) &&
        ExtractNumericPrice(cards[i].price) == cards[i].numericPrice &&
        cards[i].relevance == 80 - 10 * i
  {
    forall i | 0 <= i < 5
      ensures ExtractNumericPrice(Fallback(request, encode)[i].price) == Num(FallbackGifts[i].basePrice)
    {
      ExtractOfIndianPrice(FallbackGifts[i].basePrice);
    }
  }

  /** The fallback list does not depend on anything but the age, relationship and interests. */
  lemma FallbackNamesFixed(r1: GiftRequest, r2: GiftRequest, encode: string -> string)
    ensures forall i :: 0 <= i < 5 ==> Fallback(r1, encode)[i].name == Fallback(r2, encode)[i].name
    ensures r1.age == r2.age && r1.relationship == r2.relationship && r1.interests == r2.interests ==>
      Fallback(r1, encode) == Fallback(r2, encode)
  {
  }

  /** A fallback card's id is never one the converter gives. */
  lemma FallbackIdsNotConverted(gifts: seq<RawGift>, request: GiftRequest, encode: string -> string, i: nat, j: nat)
    requires i < 5 && j < |gifts|
    ensures Fallback(request, encode)[i].id != ConvertAll(gifts, request, encode)[j].id
  {
    var a := Fallback(request, encode)[i].id;
    var b := ConvertAll(gifts, request, encode)[j].id;
    assert a == FallbackId(i) && b == ConvertedId(j);
    assert a[0] == 'f' && b[0] == 'a';
  }
}
