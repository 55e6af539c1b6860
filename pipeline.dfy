/**
 * The recommendation pipeline (`generateGiftRecommendations`,
 * src/services/aiService.ts:344-384, with `generateOllamaRecommendations`,
 * :78-131): ask the local text generator, cut the JSON array out of its reply,
 * fall back to the rule engine whenever that fails, and convert the result
 * into cards, or give the fixed fallback list when there is nothing to convert.
 *
 * The network is not modelled: what the two requests to the generator came to
 * is the parameter `outcome`. `JSON.parse` is the parameter `parse`, which
 * gives `None` where `JSON.parse` throws. The text it is given always starts
 * with `[`, so what it gives otherwise is an array, here of gift ideas.
 */
module Pipeline {
  import opened Wrappers
  import opened Text
  import opened Prices
  import opened Gifts
  import opened RuleEngine
  import opened Convert

  // ---------------------------------------------------------------------------
  // The `[`…`]` span of the reply

  /** The first position of `c` in `s`, or `|s|` when there is none. */
  function FirstIndexOf(s: string, c: char): (k: nat)
    ensures k <= |s|
    ensures k < |s| ==> s[k] == c
    ensures forall j :: 0 <= j < k ==> s[j] != c
    decreases |s|
  {
    if s == [] || s[0] == c then 0 else 1 + FirstIndexOf(s[1..], c)
  }

  /** The last position of `c` in `s`, or -1 when there is none. */
  function LastIndexOf(s: string, c: char): (k: int)
    ensures -1 <= k < |s|
    ensures k >= 0 ==> s[k] == c
    ensures forall j :: k < j < |s| ==> s[j] != c
    decreases |s|
  {
    if s == [] then -1
    else if s[|s| - 1] == c then |s| - 1
    else LastIndexOf(s[..|s| - 1], c)
  }

  /** `span` sits at offset `a` of `text`, with no `[` before it and no `]` after it. */
  predicate OutermostAt(text: string, span: string, a: nat)
  {
    a + |span| <= |text| && text[a..a + |span|] == span &&
    (forall j :: 0 <= j < a ==> text[j] != '[') &&
    (forall j :: a + |span| <= j < |text| ==> text[j] != ']')
  }

  /**
   * The match of `/\[[\s\S]*\]/`: from the first `[` to the last `]`, when
   * that `]` comes after the `[`.
   */
  function BracketSpan(text: string): (span: Option<string>)
    ensures span.Some? <==> exists i, j :: 0 <= i < j < |text| && text[i] == '[' && text[j] == ']'
    ensures span.Some? ==>
      |span.value| >= 2 && span.value[0] == '[' && span.value[|span.value| - 1] == ']' &&
      OutermostAt(text, span.value, FirstIndexOf(text, '['))
  {
    var a := FirstIndexOf(text, '[');
    var b := LastIndexOf(text, ']');
    if a < b then Some(text[a..b + 1]) else None
  }

  // ---------------------------------------------------------------------------
  // Ask the generator, or fall back to the rules

  /**
   * What the requests to the generator came to: the availability check failed,
   * the generation request failed (a thrown `fetch`, a status that is not ok,
   * a body that is not JSON), or the body arrived with an optional `response`
   * text.
   */
  datatype OllamaOutcome = Unavailable | RequestFailed | Generated(response: Option<string>)

  /** The value `generateOllamaRecommendations` returns: the reference that the lemmas below reason about, and that the method is proved to compute. */
  function OllamaSpec(request: GiftRequest, outcome: OllamaOutcome, parse: string -> Option<seq<RawGift>>): seq<RawGift>
  {
    match outcome
    case Generated(response) =>
      var span := BracketSpan(OrElse(response, ""));
      if span.Some? && parse(span.value).Some? then parse(span.value).value
      else RuleBasedSpec(request)
    case _ => RuleBasedSpec(request)
  }

  /** `generateOllamaRecommendations`: the generator's parsed array, or the rule engine's five ideas. */
  method OllamaRecommendations(request: GiftRequest, outcome: OllamaOutcome, parse: string -> Option<seq<RawGift>>)
    returns (gifts: seq<RawGift>)
    ensures gifts == OllamaSpec(request, outcome, parse)
  {
    if outcome.Unavailable? {
      var rules := GenerateRuleBased(request);
      return rules;
    }
    if outcome.RequestFailed? {
      var rules := GenerateRuleBased(request);
      return rules;
    }
    var generatedText := OrElse(outcome.response, "");
    var jsonMatch := BracketSpan(generatedText);
    if jsonMatch.Some? {
      var parsed := parse(jsonMatch.value);
      if parsed.Some? {
        return parsed.value;
      }
    }
    var rules := GenerateRuleBased(request);
    gifts := rules;
  }

  /** Anything but the rule engine's list is what `JSON.parse` made of the reply's bracketed span. */
  lemma OllamaSpecSources(request: GiftRequest, outcome: OllamaOutcome, parse: string -> Option<seq<RawGift>>)
    ensures var v := OllamaSpec(request, outcome, parse);
      v == RuleBasedSpec(request) ||
      (outcome.Generated? && BracketSpan(OrElse(outcome.response, "")).Some? &&
       parse(BracketSpan(OrElse(outcome.response, "")).value) == Some(v))
    ensures !outcome.Generated? ==> OllamaSpec(request, outcome, parse) == RuleBasedSpec(request)
  {
  }

  /** A reply without a `[` before a `]` falls back to the rule engine, whatever `parse` does. */
  lemma NoBracketsUsesRules(request: GiftRequest, text: string, parse: string -> Option<seq<RawGift>>)
    requires forall i, j :: 0 <= i < j < |text| ==> !(text[i] == '[' && text[j] == ']')
    ensures OllamaSpec(request, Generated(Some(text)), parse) == RuleBasedSpec(request)
  {
    if text == "" {
      assert OrElse(Some(text), "") == "";
    } else {
      assert OrElse(Some(text), "") == text;
    }
  }

  // ---------------------------------------------------------------------------
  // The cards

  /** The list `generateGiftRecommendations` resolves to: the reference that the lemmas below reason about, and that the method is proved to compute. */
  function RecommendationsSpec(request: GiftRequest, outcome: OllamaOutcome, parse: string -> Option<seq<RawGift>>,
                               encode: string -> string): seq<GiftRecommendation>
  {
    var v := OllamaSpec(request, outcome, parse);
    if |v| > 0 then ConvertAll(v, request, encode) else Fallback(request, encode)
  }

  /** `generateGiftRecommendations`. */
  method GenerateGiftRecommendations(request: GiftRequest, outcome: OllamaOutcome,
                                     parse: string -> Option<seq<RawGift>>, encode: string -> string)
    returns (recommendations: seq<GiftRecommendation>)
    ensures recommendations == RecommendationsSpec(request, outcome, parse, encode)
    ensures |recommendations| > 0
  {
    var ollamaGifts := OllamaRecommendations(request, outcome, parse);
    if |ollamaGifts| > 0 {
      recommendations := ConvertAll(ollamaGifts, request, encode);
    } else {
      recommendations := Fallback(request, encode);
    }
  }

  /** The result is the converted array, the fixed fallback list, or the converted rule list. */
  lemma RecommendationsCases(request: GiftRequest, outcome: OllamaOutcome, parse: string -> Option<seq<RawGift>>,
                             encode: string -> string)
    ensures var recs := RecommendationsSpec(request, outcome, parse, encode);
      |recs| > 0 &&
      (recs == ConvertAll(RuleBasedSpec(request), request, encode) ||
       recs == Fallback(request, encode) ||
       exists items: seq<RawGift> :: |items| > 0 && outcome.Generated? &&
         Some(items) == parse(BracketSpan(OrElse(outcome.response, "")).value) &&
         recs == ConvertAll(items, request, encode))
  {
    OllamaSpecSources(request, outcome, parse);
    RuleBasedLength(request);
  }

  /**
   * The fixed fallback list is the result exactly when the reply's bracketed
   * span parses as an empty array (the comment at line 377 says it cannot be
   * reached).
   */
  lemma FallbackExactlyForEmptyArray(request: GiftRequest, outcome: OllamaOutcome,
                                     parse: string -> Option<seq<RawGift>>, encode: string -> string)
    ensures RecommendationsSpec(request, outcome, parse, encode) == Fallback(request, encode) <==>
      (outcome.Generated? && BracketSpan(OrElse(outcome.response, "")).Some? &&
       parse(BracketSpan(OrElse(outcome.response, "")).value) == Some([]))
  {
    var v := OllamaSpec(request, outcome, parse);
    OllamaSpecSources(request, outcome, parse);
    RuleBasedLength(request);
    if |v| > 0 {
      FallbackIdsNotConverted(v, request, encode, 0, 0);
      assert RecommendationsSpec(request, outcome, parse, encode)[0].id != Fallback(request, encode)[0].id;
    }
  }

  /** The rule engine's list always has five ideas. */
  lemma RuleBasedLength(request: GiftRequest)
    ensures |RuleBasedSpec(request)| == 5
  {
  }

  /**
   * Without the generator, the cards are the converted rule list: five cards,
   * `ai-gift-1` to `ai-gift-5`, each priced within the budget's maximum.
   */
  lemma OfflineRecommendations(request: GiftRequest, outcome: OllamaOutcome, parse: string -> Option<seq<RawGift>>,
                               encode: string -> string)
    requires !outcome.Generated?
    ensures var recs := RecommendationsSpec(request, outcome, parse, encode);
      |recs| == 5 &&
      forall i :: 0 <= i < 5 ==>
        recs[i].id == ConvertedId(i) &&
        recs[i].name == RuleBasedSpec(request)[i].name &&
        recs[i].numericPrice.Num? && recs[i].numericPrice.value <= BudgetFor(request.budget).max
  {
    var rules := RuleBasedSpec(request);
    RuleBasedPriceCap(request);
    ConvertAllShape(rules, request, encode);
    forall i | 0 <= i < 5
      ensures ConvertAll(rules, request, encode)[i].numericPrice == ExtractNumericPrice(rules[i].estimatedPrice.value)
    {
      assert OrElse(rules[i].estimatedPrice, DefaultPriceText) == rules[i].estimatedPrice.value;
    }
  }
}
