# Gift recommendation service — a Dafny model

This project models the recommendation logic of a browser gift finder. A form
collects a recipient's age, relationship, occasion, budget band and a
comma-separated list of interests. The service answers with gift cards. Each
card has an id, a display price and a numeric price, a relevance score,
Amazon and Flipkart search links and interest tags.

The service asks a local text generator (Ollama) for a JSON array of gift
ideas. It cuts the `[`…`]` span out of the reply and parses it. When the
generator is unreachable, the request fails, the reply has no array, or the
array does not parse, it falls back to a keyword rule engine:

- fifteen substring rules over the lower-cased interests, relationship and
  occasion;
- some rules also gated on the budget band's maximum or on an age window;
- every price capped at the band's maximum;
- padded with gift cards to exactly five ideas.

The ideas are converted into cards in order. When there is nothing to convert,
the service returns a fixed five-card fallback list. A group-gifting dialog
splits a card's numeric price among at least two people.

The modules follow the source:

- `Text` models the string built-ins the code relies on. These are
  `includes`, `toLowerCase`, `trim`, `split`, `join` and decimal rendering.
- `Prices` models `extractNumericPrice`, plus the Indian digit grouping that
  `toLocaleString('en-IN')` gives a whole number.
- `Gifts` holds the request, raw idea and card records, and JavaScript's `||`
  default on an optional string.
- `RuleEngine` holds two descriptions of the rule engine:
  - The sixteen gifts the engine can push are the datatype `GiftIdea`. Its
    functions `Name`, `Description`, `Reason`, `Category` and `BasePrice`
    hold the source's texts and prices. `Render` builds a gift's object
    literal from the lower-cased fields and the budget.
  - `GenerateRuleBased` is the imperative engine: the source's blocks of
    guarded pushes (one method per block), then the padding loop.
  - `RuleBasedSpec` is an independent table-driven reading: the rule table
    `RuleTable`, the firing rules' gifts in order (`Select`), padded and cut
    to five (`Padded`), then rendered (`RenderAll`).
  - The method is proved equal to `RuleBasedSpec`, and the properties are
    proved about `RuleBasedSpec`.
  - The method collects the gifts first and builds their object literals
    at the end. Every literal depends only on its gift and on values the
    engine fixes before the first block, so the result is the same.
- `Convert` holds the shopping links, the converter and the fallback list.
- `Pipeline` models the bracket-span extraction, `generateOllamaRecommendations`
  and `generateGiftRecommendations`.
- `GroupGifting` holds the people counter, as a class with the counter as its
  field, and the ceiling split.

Some parts are parameters rather than code:

- The network is the parameter `outcome`. It says what the two requests came
  to.
- `JSON.parse` is the parameter `parse`, which gives `None` where it throws.
- `encodeURIComponent` is the parameter `encode`.
- `parseInt` on the typed people count is the parameter `parsed`, which is
  `None` for `NaN`.

Relevance scores are integer hundredths: 0.95 is 95. A JavaScript number that
can be `NaN` is the datatype `Numeric`.

The recommendations come from the generator's reply or from the keyword rule
engine; past both there is only the fixed fallback list. The budget band's
`min` is looked up but never used. The comment at
src/services/aiService.ts:377 says that the final fallback list cannot be
reached. It can be, in one way only: the parsed text always starts with `[`,
so a successful parse is an array, and the line is reached exactly when that
array is empty (a reply whose bracketed span is `[]` or another empty array).
`Pipeline.FallbackExactlyForEmptyArray` states this.

The form sends the budget as one of `under-50`, `50-100`, `100-200`,
`200-500` and `over-500` (src/components/GiftFinderForm.tsx:119-123), while
the engine's table is keyed by rupee labels such as `₹1,000 - ₹5,000`
(src/services/aiService.ts:140-144). None of the form's values is a label, so
a request from the form always gets the default range 1000 to 5000, and the
rules gated on a maximum of 8000 or 15000 (the smart watch, the e-reader and
the instant camera) never fire for it. `RuleEngine.FormBudgetsGetDefault` and
`RuleEngine.FormRequestsMissBudgetGates` state this; the rest of the model
keeps the engine's own labels.

## Model

| member | source | states |
|---|---|---|
| Text.ContainsIff | src/services/aiService.ts:151 | `includes`: the text contains the keyword exactly when the keyword occurs at some offset |
| Text.ToLower | src/services/aiService.ts:135-138 | `toLowerCase` keeps the length and maps each character to its lower-case form |
| Text.TrimSpec | src/services/aiService.ts:42 | `trim` keeps a contiguous piece of the input, cut only at whitespace, that neither starts nor ends with whitespace |
| Text.Split | src/services/aiService.ts:42 | `split(',')` gives one more piece than there are commas, and no piece holds a comma |
| Text.JoinSplit | src/services/aiService.ts:42 | joining the split pieces with the separator gives back the original text |
| Text.InterestListSpec | src/services/aiService.ts:369 | the tags are one more than the commas, each comma-free and trimmed |
| Text.PromptInterestsRoundTrip | src/services/aiService.ts:42-50 | reading the prompt's `join(', ')` of the interests back through split and trim gives the same interests |
| Text.NatToString | src/services/aiService.ts:158 | decimal rendering of a whole number: non-empty, all digits, no leading zero |
| Text.DigitsValueOfNatToString | src/services/aiService.ts:329 | reading a rendered number's digits back gives the number |
| Text.NatToStringInjective | src/services/aiService.ts:358 | different numbers render differently |
| Prices.PriceMatch | src/services/aiService.ts:327 | `/₹?[\d,]+/`: no match exactly when the text has no digit or comma, otherwise an optional `₹` followed by digits and commas |
| Prices.PriceMatchIsFirstMatch | src/services/aiService.ts:327 | the match occurs in the text at a position before which no match of the pattern starts (so a `₹` just before the run is taken with it), and it ends at the end of the text or before a character that is neither digit nor comma |
| Prices.ExtractOfEmbeddedPrice | src/services/aiService.ts:326-332 | a text with no digit or comma before `₹` and a run of digits and commas that starts with a digit reads as the digits of that run, whatever follows the run |
| Prices.ExtractOfPriceRange | src/services/aiService.ts:326-332 | the range text "₹1,500 - ₹2,000" reads as its first price, 1500 |
| Prices.ParseDigits | src/services/aiService.ts:329 | `parseInt` on the cleaned digits is `NaN` exactly when nothing is left |
| Prices.ExtractNumericPrice | src/services/aiService.ts:326-332 | a price text with no digit or comma reads as the default 2000 |
| Prices.ExtractOfPriceTag | src/services/aiService.ts:326-332 | `₹` followed by the decimal rendering of n reads back as n |
| Prices.FormatIndian | src/services/aiService.ts:428 | Indian grouping of n: starts with a digit, holds only digits and commas, its digits spell n, the commas stand exactly before the last three digits and then before every two digits further left, and it has no leading zero (0 is written `0`) |
| Prices.ExtractOfIndianPrice | src/services/aiService.ts:428 | `₹` followed by the Indian grouping of n reads back as n |
| Gifts.OrElse | src/services/aiService.ts:355-363 | `value \|\| fallback`: a present non-empty value is kept, an absent or empty one is replaced |
| RuleEngine.BudgetFor | src/services/aiService.ts:139-147 | the five band labels give their stated ranges, and any other label gives 1000 to 5000 |
| RuleEngine.NameInjective | src/services/aiService.ts:153-319 | different gifts carry different names, so a name identifies its gift |
| RuleEngine.Fired | src/services/aiService.ts:148-309 | the positions of the firing rules, increasing; the selected gifts are exactly those rules' gifts, in table order |
| RuleEngine.FiredComplete | src/services/aiService.ts:148-309 | no firing rule is left out of the selection |
| RuleEngine.Padded | src/services/aiService.ts:311-322 | padding then `slice(0, 5)`: exactly five entries, the matches first, then only filler |
| RuleEngine.TechGifts | src/services/aiService.ts:150-170 | the tech block appends exactly the gifts of rules 1 and 2 that fire |
| RuleEngine.ReadingGifts | src/services/aiService.ts:172-191 | the reading block appends exactly the gifts of rules 3 and 4 that fire |
| RuleEngine.FitnessGifts | src/services/aiService.ts:193-212 | the fitness block appends exactly the gifts of rules 5 and 6 that fire |
| RuleEngine.ArtGifts | src/services/aiService.ts:214-233 | the art block appends exactly the gifts of rules 7 and 8 that fire |
| RuleEngine.MusicGifts | src/services/aiService.ts:235-246 | the music block appends the speaker exactly when rule 9 fires |
| RuleEngine.CookingGifts | src/services/aiService.ts:248-267 | the cooking block appends exactly the gifts of rules 10 and 11 that fire |
| RuleEngine.TravelGifts | src/services/aiService.ts:269-288 | the travel block appends exactly the gifts of rules 12 and 13 that fire |
| RuleEngine.RelationshipGifts | src/services/aiService.ts:290-299 | the parent block appends the diffuser exactly when rule 14 fires |
| RuleEngine.OccasionGifts | src/services/aiService.ts:301-309 | the birthday block appends the photo frames exactly when rule 15 fires |
| RuleEngine.ChooseGifts | src/services/aiService.ts:148-309 | the nine blocks together collect exactly the gifts of the firing rules, in table order |
| RuleEngine.PadToFive | src/services/aiService.ts:311-322 | the loop and the slice give the first five matches, followed by gift cards up to five |
| RuleEngine.GenerateRuleBased | src/services/aiService.ts:134-323 | the engine returns exactly five ideas, equal to the table-driven reading of the rules |
| RuleEngine.RuleBasedRendered | src/services/aiService.ts:148-322 | each of the five entries is the object literal of the gift chosen at that position |
| RuleEngine.RuleGiftsDistinct | src/services/aiService.ts:150-309 | each gift has at most one rule, and the gift card has none |
| RuleEngine.RuleBasedEntries | src/services/aiService.ts:148-320 | every chosen gift is a gift card or the gift of a rule that fires |
| RuleEngine.RuleBasedPriceCap | src/services/aiService.ts:158-318 | every entry's price is `₹` followed by the smaller of its gift's base price and the band's maximum, and reads back as that number, never above the maximum |
| RuleEngine.RuleBasedPaddingAfterMatches | src/services/aiService.ts:311-320 | an entry is named as the gift card exactly when it comes after all rule matches |
| RuleEngine.RulePositionOfRule | src/services/aiService.ts:150-309 | a rule's gift is found at that rule's own position in the table |
| RuleEngine.RuleBasedInRuleOrder | src/services/aiService.ts:148-309 | the rule gifts appear in the order of their rules in the table |
| RuleEngine.RuleBasedNamesDistinct | src/services/aiService.ts:148-320 | no name appears twice in the result, except the gift card used as padding |
| RuleEngine.RuleBasedKeepsAllWhenFew | src/services/aiService.ts:311-322 | when at most five rules fire, every firing rule's gift is in the result |
| RuleEngine.NamePresentIff | src/services/aiService.ts:153-319 | a gift's name is in the result exactly when that gift is among the chosen ones |
| RuleEngine.ChosenOnlyIfFired | src/services/aiService.ts:148-309 | a rule's gift is chosen only if that rule fires |
| RuleEngine.SmartWatchGate | src/services/aiService.ts:151-160 | the smart watch is chosen exactly when the interests mention tech or a gadget and the maximum is at least 15000 |
| RuleEngine.RuleBasedKeepsEarly | src/services/aiService.ts:148-322 | a firing rule among the first five of the table always has its gift in the result, at or before its own position |
| RuleEngine.EReaderGate | src/services/aiService.ts:173-191 | the e-reader is chosen exactly when the interests mention read, book or learn and the maximum is at least 8000 |
| RuleEngine.PhotoFrameGate | src/services/aiService.ts:301-309 | the photo frames are chosen only for a birthday and an age from 18 to 30 |
| RuleEngine.FormBudgetsGetDefault | src/services/aiService.ts:139-147 | each budget value the form sends falls outside the table and gets the range 1000 to 5000 |
| RuleEngine.FormRequestsMissBudgetGates | src/services/aiService.ts:151-288 | a request with a budget value from the form never gets the smart watch, the e-reader or the instant camera |
| Convert.LinksFor | src/services/aiService.ts:335-341 | the links are the fixed store search prefixes followed by the encoded name |
| Convert.LinksDistinguishNames | src/services/aiService.ts:335-341 | names with different encodings get different links at both stores |
| Convert.PrefixCancel | src/services/aiService.ts:338-339 | link texts with a common prefix are equal only when their remainders are |
| Convert.ConvertAll | src/services/aiService.ts:353-371 | one card per idea, in the same order |
| Convert.ConvertAllShape | src/services/aiService.ts:353-370 | card i keeps idea i's name, gets id `ai-gift-(i+1)`, relevance 95 − 10·i, the links of its name and the request's interest tags |
| Convert.ConvertedIdsDistinct | src/services/aiService.ts:358 | different positions get different ids |
| Convert.ConvertAllRelevanceDecreasing | src/services/aiService.ts:368 | relevance falls strictly with position |
| Convert.DefaultPricesReadBack | src/services/aiService.ts:355-361 | both default price texts, "₹2,000" and "₹2000", read as 2000 |
| Convert.ConvertMissingPrice | src/services/aiService.ts:355-361 | an idea without a price is shown at "₹2,000" and counted as 2000 |
| Convert.ConvertAllPricesAgree | src/services/aiService.ts:355-361 | every converted card's numeric price is what its displayed price reads as |
| Convert.Fallback | src/services/aiService.ts:387-439 | the fallback list is the five fixed gifts, each carded at its position |
| Convert.FallbackShape | src/services/aiService.ts:421-438 | fallback card i has id `fallback-(i+1)`, numeric price equal to its base price, a displayed price that reads back as it, and relevance 80 − 10·i |
| Convert.FallbackIdsDistinct | src/services/aiService.ts:425 | the fallback ids are pairwise different |
| Convert.FallbackNamesFixed | src/services/aiService.ts:387-438 | the fallback names never depend on the request, and the whole list depends only on age, relationship and interests |
| Convert.FallbackIdsNotConverted | src/services/aiService.ts:425 | no fallback id is ever an id the converter gives |
| Pipeline.FirstIndexOf | src/services/aiService.ts:116 | the first position of a character, or the length when it is absent |
| Pipeline.LastIndexOf | src/services/aiService.ts:116 | the last position of a character, or -1 when it is absent |
| Pipeline.BracketSpan | src/services/aiService.ts:116 | `/\[[\s\S]*\]/`: a span exists exactly when some `[` precedes some `]`; it runs from the first `[` to the last `]` |
| Pipeline.OllamaRecommendations | src/services/aiService.ts:78-131 | the generator's parsed array, or the rule engine's list on every failure path |
| Pipeline.OllamaSpecSources | src/services/aiService.ts:78-131 | anything but the rule list is what the parser made of the reply's bracketed span, and without a reply it is always the rule list |
| Pipeline.NoBracketsUsesRules | src/services/aiService.ts:113-127 | a reply with no `[` before a `]` falls back to the rules, whatever the parser does |
| Pipeline.GenerateGiftRecommendations | src/services/aiService.ts:344-384 | the result is never empty: converted ideas when there are any, the fallback list otherwise |
| Pipeline.RecommendationsCases | src/services/aiService.ts:344-384 | the result is the converted rule list, the fallback list, or the conversion of a non-empty array parsed from the reply |
| Pipeline.FallbackExactlyForEmptyArray | src/services/aiService.ts:344-384 | the fixed fallback list is returned exactly when the generator answered and the reply's bracketed span parses as an empty array |
| Pipeline.RuleBasedLength | src/services/aiService.ts:312-322 | the rule engine's list always has five ideas |
| Pipeline.OfflineRecommendations | src/services/aiService.ts:80-84 | without the generator the result is five cards `ai-gift-1` to `ai-gift-5` with the rule gifts' names, each priced within the band's maximum |
| GroupGifting.CeilDiv | src/components/GroupGiftingDialog.tsx:22 | `Math.ceil(total / n)`: the share times n covers the total, and one less would not |
| GroupGifting.CeilDivMorePeople | src/components/GroupGiftingDialog.tsx:22 | one more person never raises the share |
| GroupGifting.AfterDecrement | src/components/GroupGiftingDialog.tsx:92 | decrement gives max(2, n − 1): never below 2, one less above 2 |
| GroupGifting.AfterInput | src/components/GroupGiftingDialog.tsx:101 | a typed count of at least 2 is kept, anything else (zero, negative, `NaN`) gives 2 |
| GroupGifting.ReplayAtLeastTwo | src/components/GroupGiftingDialog.tsx:92-108 | from a count of at least 2, every sequence of decrements, typed inputs and increments keeps it at least 2 |
| GroupGifting.ReachableSplit | src/components/GroupGiftingDialog.tsx:17-22 | from the initial 2, every reachable count is at least 2 and the split covers the total |
| GroupGifting.DecrementDisabledIff | src/components/GroupGiftingDialog.tsx:92-93 | the `-` button is disabled exactly when decrementing would change nothing |
| GroupGifting.GroupGiftingDialog.constructor | src/components/GroupGiftingDialog.tsx:17 | the counter starts at 2 |
| GroupGifting.GroupGiftingDialog.DecrementDisabled | src/components/GroupGiftingDialog.tsx:93 | disabled exactly when the count is at most 2 |
| GroupGifting.GroupGiftingDialog.Decrement | src/components/GroupGiftingDialog.tsx:92 | the count becomes max(2, n − 1) and stays at least 2 |
| GroupGifting.GroupGiftingDialog.Input | src/components/GroupGiftingDialog.tsx:101 | the count becomes the typed count clamped to at least 2 |
| GroupGifting.GroupGiftingDialog.Increment | src/components/GroupGiftingDialog.tsx:108 | the count grows by exactly one and stays at least 2 |
| GroupGifting.GroupGiftingDialog.AmountPerPerson | src/components/GroupGiftingDialog.tsx:21-22 | the share is `NaN` exactly when the price is; otherwise it is the ceiling of the price over the count |

## Left out

- The network: `checkOllamaAvailability`, the generation `fetch` and `response.json()` are external calls. The parameter `outcome` stands for what they came to.
- `JSON.parse` is library code. It is the parameter `parse`, which yields an array of ideas with a string name and optional string fields, or `None` where it throws. Elements of other shapes are not modelled. In the source some of them throw: a truthy `estimatedPrice` that is not a string fails at `.match` (src/services/aiService.ts:327), and a missing or non-string `name` with a falsy description fails at `toLowerCase` (src/services/aiService.ts:360); the catch at src/services/aiService.ts:380-382 then returns the fallback list. Others give cards the model cannot express: a missing name with a truthy description gives the links for the text `undefined`, and a numeric description, category or reason is copied into the card as it is.
- `encodeURIComponent` is library code. It is the parameter `encode`, and nothing is assumed about it.
- The prompt text of `formatPromptForLLaMA` is not modelled beyond its interest list (`PromptInterests`). The text is only sent to the generator.
- `simulateAIProcessing` is not modelled: it is a random timer delay.
- Console logging is not modelled.
- `toLowerCase` covers only ASCII letters. The source's full Unicode case mapping is not modelled.
- `toLocaleString('en-IN')` is modelled only for whole non-negative numbers. Those are the only values src/services/aiService.ts formats with it (:428). The group-gifting dialog also formats the per-person share with it (src/components/GroupGiftingDialog.tsx:28, :41 and :121); that share is a whole number or `NaN`, and the model does not render it.
- Relevance scores are exact hundredths. The floating-point rounding of `0.95 - index * 0.1` is not modelled.
- The people count is an unbounded integer. `parseInt`'s handling of very large or fractional input is the parameter `parsed`.
- Prices.ExtractNumericPrice: a digit string above 2^53 reads as its exact value, whereas `parseInt` gives the nearest double.
- GroupGifting.GroupGiftingDialog.AmountPerPerson: the share is the exact integer ceiling of price over count, whereas the source takes `Math.ceil` of a floating-point division, which can differ once the price is beyond 2^53.
- GroupGifting.CeilDiv: exact integer division, for the same reason.
- Budget labels that name `Object.prototype` properties (such as `constructor`) are treated as unknown labels. In the source, such a label would be looked up on the prototype.
- A price text whose first digit-and-comma run is only commas reads as `NaN` (src/services/aiService.ts:327-329). The model keeps this behaviour and asserts no property about it.
- PhotoFrameGate: only the "only when" direction is stated. The photo frames are the last rule, so earlier matches can push them past the fifth place.
- React state plumbing, toasts, the clipboard, WhatsApp and mail message texts, routing, and the pages and form components are not modelled. They hold no logic beyond display.
