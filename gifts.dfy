/** The records the recommendation service exchanges (src/services/aiService.ts:1-23). */
module Gifts {
  import opened Wrappers
  import Prices

  /** What the form collects about the recipient. */
  datatype GiftRequest = GiftRequest(
    recipientName: string,
    age: int,
    relationship: string,
    occasion: string,
    budget: string,
    interests: string)

  /**
   * A gift idea before conversion, as the rule engine builds it or as the
   * text generator's JSON array holds it: every field but the name may be
   * missing.
   */
  datatype RawGift = RawGift(
    name: string,
    description: Option<string>,
    reason: Option<string>,
    category: Option<string>,
    estimatedPrice: Option<string>)

  /**
   * A recommendation as the cards display it. `relevance` is the relevance
   * score in hundredths (0.95 is 95).
   */
  datatype GiftRecommendation = GiftRecommendation(
    id: string,
    name: string,
    description: string,
    price: string,
    category: string,
    reason: string,
    image: string,
    amazonLink: string,
    flipkartLink: string,
    numericPrice: Prices.Numeric,
    relevance: int,
    tags: seq<string>)

  /** JavaScript's `value || fallback` on an optional string: an absent or empty value is replaced. */
  function OrElse(value: Option<string>, fallback: string): (r: string)
    ensures value.Some? && value.value != "" ==> r == value.value
    ensures value.None? || value.value == "" ==> r == fallback
  {
    if value.Some? && value.value != "" then value.value else fallback
  }
}
