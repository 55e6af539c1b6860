/**
 * The rule-based recommendation engine, `generateRuleBasedRecommendations`
 * (src/services/aiService.ts:134-323).
 *
 * The engine tests a fixed sequence of keyword rules against the lower-cased
 * interests, relationship and occasion, appends one gift per rule that fires,
 * pads with gift cards up to five entries and keeps the first five. The
 * method `GenerateRuleBased` follows the source's nested `if`s and pushes;
 * it is proved equal to `RuleBasedSpec`, which reads the same rules from a
 * table of guards (`RuleTable`) and which the lemmas below are about.
 */
module RuleEngine {
  import opened Wrappers
  import opened Text
  import opened Prices
  import opened Gifts

  // ---------------------------------------------------------------------------
  // Budget buckets (src/services/aiService.ts:139-147)

  datatype BudgetRange = BudgetRange(min: nat, max: nat)

  const BudgetRanges: map<string, BudgetRange> := map[
    "Under ₹1,000" := BudgetRange(500, 1000),
    "₹1,000 - ₹5,000" := BudgetRange(1000, 5000),
    "₹5,000 - ₹10,000" := BudgetRange(5000, 10000),
    "₹10,000 - ₹25,000" := BudgetRange(10000, 25000),
    "Above ₹25,000" := BudgetRange(25000, 50000)
  ]

  /** The range for a budget label: one of the five buckets, or 1,000 to 5,000 for any other label. */
  function BudgetFor(bucket: string): (b: BudgetRange)
    ensures bucket == "Under ₹1,000" ==> b == BudgetRange(500, 1000)
    ensures bucket == "₹1,000 - ₹5,000" ==> b == BudgetRange(1000, 5000)
    ensures bucket == "₹5,000 - ₹10,000" ==> b == BudgetRange(5000, 10000)
    ensures bucket == "₹10,000 - ₹25,000" ==> b == BudgetRange(10000, 25000)
    ensures bucket == "Above ₹25,000" ==> b == BudgetRange(25000, 50000)
    ensures bucket !in BudgetRanges.Keys ==> b == BudgetRange(1000, 5000)
    ensures 500 <= b.min < b.max <= 50000
  {
    if bucket in BudgetRanges then BudgetRanges[bucket] else BudgetRange(1000, 5000)
  }

  // ---------------------------------------------------------------------------
  // The gifts the engine can push

  /** The `reason` text of a gift: fixed, or built around the age or the occasion. */
  datatype ReasonText = Fixed(text: string) | AroundAge(before: string, after: string) | AfterOccasion(before: string)

  /** One object literal the engine pushes; `GiftCard` is the padding entry (src/services/aiService.ts:312-320). */
  datatype GiftIdea =
    | SmartFitnessWatch | WirelessEarbuds | CuratedBookCollection | EReader | YogaMatSet | ResistanceBandKit
    | ArtSupplyKit | PotteryKit | BluetoothSpeaker | SpiceCollection | KnifeSet | TravelOrganizer
    | InstantCamera | AromatherapyDiffuser | PhotoFrames | GiftCard

  function Name(g: GiftIdea): string
  {
    match g
    case SmartFitnessWatch => "Smart Fitness Watch"
    case WirelessEarbuds => "Wireless Earbuds"
    case CuratedBookCollection => "Curated Book Collection"
    case EReader => "E-Reader with Premium Case"
    case YogaMatSet => "Premium Yoga Mat Set"
    case ResistanceBandKit => "Resistance Band Training Kit"
    case ArtSupplyKit => "Professional Art Supply Kit"
    case PotteryKit => "Pottery Starter Kit"
    case BluetoothSpeaker => "Bluetooth Speaker Premium"
    case SpiceCollection => "Gourmet Spice Collection"
    case KnifeSet => "Professional Knife Set"
    case TravelOrganizer => "Travel Organizer Set"
    case InstantCamera => "Instant Camera Travel Kit"
    case AromatherapyDiffuser => "Aromatherapy Diffuser Set"
    case PhotoFrames => "Personalized Photo Frame Collection"
    case GiftCard => "Premium Gift Card Collection"
  }

  function Description(g: GiftIdea): string
  {
    match g
    case SmartFitnessWatch => "Advanced smartwatch with health monitoring and GPS tracking"
    case WirelessEarbuds => "Premium wireless earbuds with noise cancellation"
    case CuratedBookCollection => "Handpicked books based on their interests and personal growth"
    case EReader => "Digital reading device with a leather protective case"
    case YogaMatSet => "Eco-friendly yoga mat with accessories and carrying bag"
    case ResistanceBandKit => "Complete resistance training system for home workouts"
    case ArtSupplyKit => "Complete set of premium art supplies for various mediums"
    case PotteryKit => "Everything needed to start pottery as a hobby"
    case BluetoothSpeaker => "High-quality portable speaker with rich sound"
    case SpiceCollection => "Premium spices from around the world with recipe cards"
    case KnifeSet => "High-quality kitchen knives with wooden block"
    case TravelOrganizer => "Complete travel organization kit with packing cubes"
    case InstantCamera => "Portable camera for capturing travel memories instantly"
    case AromatherapyDiffuser => "Essential oil diffuser with a collection of calming oils"
    case PhotoFrames => "Custom photo frames for displaying favorite memories"
    case GiftCard => "Flexible gift cards for their favorite stores and experiences"
  }

  function Reason(g: GiftIdea): ReasonText
  {
    match g
    case SmartFitnessWatch => AroundAge("Perfect for a ", "-year-old who loves technology and staying connected")
    case WirelessEarbuds => Fixed("Great for someone who appreciates technology and music")
    case CuratedBookCollection => Fixed("Thoughtfully selected for someone who loves learning and reading")
    case EReader => Fixed("Perfect for a book lover who appreciates modern convenience")
    case YogaMatSet => Fixed("Ideal for someone passionate about fitness and wellness")
    case ResistanceBandKit => Fixed("Great for maintaining fitness routines at home")
    case ArtSupplyKit => Fixed("Perfect for unleashing their creative potential")
    case PotteryKit => Fixed("Encourages creativity and provides a relaxing artistic outlet")
    case BluetoothSpeaker => Fixed("Perfect for a music enthusiast who loves sharing great sound")
    case SpiceCollection => Fixed("Perfect for someone who loves experimenting with flavors")
    case KnifeSet => Fixed("Essential tools for any cooking enthusiast")
    case TravelOrganizer => Fixed("Makes traveling more organized and enjoyable")
    case InstantCamera => Fixed("Perfect for creating lasting memories during adventures")
    case AromatherapyDiffuser => Fixed("Promotes relaxation and creates a peaceful home environment")
    case PhotoFrames => Fixed("Thoughtful way to celebrate another year of life and memories")
    case GiftCard => AfterOccasion("Gives them the freedom to choose something they truly want for ")
  }

  function Category(g: GiftIdea): string
  {
    match g
    case SmartFitnessWatch => "Electronics"
    case WirelessEarbuds => "Electronics"
    case CuratedBookCollection => "Books & Learning"
    case EReader => "Electronics"
    case YogaMatSet => "Sports & Fitness"
    case ResistanceBandKit => "Sports & Fitness"
    case ArtSupplyKit => "Arts & Crafts"
    case PotteryKit => "Arts & Crafts"
    case BluetoothSpeaker => "Electronics"
    case SpiceCollection => "Food & Cooking"
    case KnifeSet => "Food & Cooking"
    case TravelOrganizer => "Travel & Adventure"
    case InstantCamera => "Travel & Adventure"
    case AromatherapyDiffuser => "Health & Wellness"
    case PhotoFrames => "Personalized"
    case GiftCard => "Gift Cards"
  }

  /** The uncapped price in the `Math.min(base, budget.max)` of each push. */
  function BasePrice(g: GiftIdea): nat
  {
    match g
    case SmartFitnessWatch => 15000
    case WirelessEarbuds => 3500
    case CuratedBookCollection => 2000
    case EReader => 8000
    case YogaMatSet => 2800
    case ResistanceBandKit => 1200
    case ArtSupplyKit => 5000
    case PotteryKit => 3200
    case BluetoothSpeaker => 2500
    case SpiceCollection => 1800
    case KnifeSet => 4000
    case TravelOrganizer => 2200
    case InstantCamera => 8000
    case AromatherapyDiffuser => 3200
    case PhotoFrames => 1500
    case GiftCard => 2000
  }

  /** The lower-cased request fields and budget the rules look at (src/services/aiService.ts:135-147). */
  datatype Context = Context(interests: string, relationship: string, occasion: string, age: int, budget: BudgetRange)

  function ContextOf(request: GiftRequest): Context
  {
    Context(ToLower(request.interests), ToLower(request.relationship), ToLower(request.occasion),
            request.age, BudgetFor(request.budget))
  }

  function Min(a: nat, b: nat): nat { if a <= b then a else b }

  /** The template literal `₹${n}`. */
  function PriceTag(n: nat): string { [Rupee] + NatToString(n) }

  function ReasonFor(reason: ReasonText, ctx: Context): string
  {
    match reason
    case Fixed(text) => text
    case AroundAge(before, after) => before + IntToString(ctx.age) + after
    case AfterOccasion(before) => before + ctx.occasion
  }

  /** The object literal of one `push`: every field present, the price capped at the budget's maximum. */
  function Render(g: GiftIdea, ctx: Context): RawGift
  {
    RawGift(Name(g), Some(Description(g)), Some(ReasonFor(Reason(g), ctx)), Some(Category(g)),
            Some(PriceTag(Min(BasePrice(g), ctx.budget.max))))
  }

  /** The length and first letter of a gift's name, which already tell the gifts apart. */
  function NameSignature(g: GiftIdea): (nat, char)
  {
    match g
    case SmartFitnessWatch => (19, 'S')
    case WirelessEarbuds => (16, 'W')
    case CuratedBookCollection => (23, 'C')
    case EReader => (26, 'E')
    case YogaMatSet => (20, 'P')
    case ResistanceBandKit => (28, 'R')
    case ArtSupplyKit => (27, 'P')
    case PotteryKit => (19, 'P')
    case BluetoothSpeaker => (25, 'B')
    case SpiceCollection => (24, 'G')
    case KnifeSet => (22, 'P')
    case TravelOrganizer => (20, 'T')
    case InstantCamera => (25, 'I')
    case AromatherapyDiffuser => (25, 'A')
    case PhotoFrames => (35, 'P')
    case GiftCard => (28, 'P')
  }

  lemma NameHasSignature(g: GiftIdea)
    ensures |Name(g)| > 0 && NameSignature(g) == (|Name(g)|, Name(g)[0])
  {
  }

  /** Different gifts have different names. */
  lemma NameInjective(a: GiftIdea, b: GiftIdea)
    ensures Name(a) == Name(b) ==> a == b
  {
    NameHasSignature(a);
    NameHasSignature(b);
  }

  // ---------------------------------------------------------------------------
  // The rule table

  datatype Field = InterestsField | RelationshipField | OccasionField

  datatype AgeWindow = AgeWindow(lo: int, hi: int)

  /**
   * When a rule fires: its field mentions one of the keywords, the budget's
   * maximum is at least `minBudgetMax` (0 for an ungated rule) and the age
   * lies in the window, if there is one.
   */
  datatype Guard = Guard(field: Field, keywords: seq<string>, minBudgetMax: nat, ages: Option<AgeWindow>)

  datatype Rule = Rule(gift: GiftIdea, guard: Guard)

  /** Some keyword is a substring of `s` (a chain of `includes` joined by `||`). */
  predicate MentionsAny(s: string, keywords: seq<string>)
    decreases |keywords|
  {
    |keywords| > 0 && (Contains(s, keywords[0]) || MentionsAny(s, keywords[1..]))
  }

  function FieldText(field: Field, ctx: Context): string
  {
    match field
    case InterestsField => ctx.interests
    case RelationshipField => ctx.relationship
    case OccasionField => ctx.occasion
  }

  predicate Holds(g: Guard, ctx: Context)
  {
    MentionsAny(FieldText(g.field, ctx), g.keywords) &&
    ctx.budget.max >= g.minBudgetMax &&
    (g.ages.Some? ==> g.ages.value.lo <= ctx.age <= g.ages.value.hi)
  }

  const TechWords: seq<string> := ["tech", "gadget"]
  const ReadingWords: seq<string> := ["read", "book", "learn"]
  const FitnessWords: seq<string> := ["fitness", "health", "sport"]
  const ArtWords: seq<string> := ["art", "creative", "paint"]
  const MusicWords: seq<string> := ["music", "sing", "instrument"]
  const CookingWords: seq<string> := ["cook", "food", "culinary"]
  const TravelWords: seq<string> := ["travel", "adventure", "explore"]
  const ParentWords: seq<string> := ["parent", "mom", "dad"]
  const BirthdayWords: seq<string> := ["birthday"]

  /** The rules in the order the source tests them (src/services/aiService.ts:150-309). */
  const RuleTable: seq<Rule> := [
    Rule(SmartFitnessWatch, Guard(InterestsField, TechWords, 15000, None)),
    Rule(WirelessEarbuds, Guard(InterestsField, TechWords, 3000, None)),
    Rule(CuratedBookCollection, Guard(InterestsField, ReadingWords, 0, None)),
    Rule(EReader, Guard(InterestsField, ReadingWords, 8000, None)),
    Rule(YogaMatSet, Guard(InterestsField, FitnessWords, 0, None)),
    Rule(ResistanceBandKit, Guard(InterestsField, FitnessWords, 1200, None)),
    Rule(ArtSupplyKit, Guard(InterestsField, ArtWords, 5000, None)),
    Rule(PotteryKit, Guard(InterestsField, ArtWords, 0, None)),
    Rule(BluetoothSpeaker, Guard(InterestsField, MusicWords, 2500, None)),
    Rule(SpiceCollection, Guard(InterestsField, CookingWords, 0, None)),
    Rule(KnifeSet, Guard(InterestsField, CookingWords, 4000, None)),
    Rule(TravelOrganizer, Guard(InterestsField, TravelWords, 0, None)),
    Rule(InstantCamera, Guard(InterestsField, TravelWords, 8000, None)),
    Rule(AromatherapyDiffuser, Guard(RelationshipField, ParentWords, 0, None)),
    Rule(PhotoFrames, Guard(OccasionField, BirthdayWords, 0, Some(AgeWindow(18, 30))))
  ]

  /** What a rule contributes: its gift when it fires, nothing otherwise. */
  function Emit(rule: Rule, ctx: Context): seq<GiftIdea>
  {
    if Holds(rule.guard, ctx) then [rule.gift] else []
  }

  /** The gifts of the rules that fire, in rule order. */
  function Select(rules: seq<Rule>, ctx: Context): seq<GiftIdea>
    decreases |rules|
  {
    if rules == [] then [] else Select(rules[..|rules| - 1], ctx) + Emit(rules[|rules| - 1], ctx)
  }

  /** Evaluating one more rule appends what it emits. */
  lemma SelectStep(rules: seq<Rule>, k: nat, ctx: Context)
    requires k < |rules|
    ensures Select(rules[..k + 1], ctx) == Select(rules[..k], ctx) + Emit(rules[k], ctx)
  {
    assert rules[..k + 1][..k] == rules[..k];
  }

  /**
   * The positions of the rules that fire, increasing: the selected gifts are
   * exactly the gifts of those rules, in table order.
   */
  ghost function Fired(rules: seq<Rule>, ctx: Context): (idx: seq<nat>)
    ensures |idx| == |Select(rules, ctx)|
    ensures forall j :: 0 <= j < |idx| ==> idx[j] < |rules| && Holds(rules[idx[j]].guard, ctx)
    ensures forall j :: 0 <= j < |idx| ==> Select(rules, ctx)[j] == rules[idx[j]].gift
    ensures forall i, j :: 0 <= i < j < |idx| ==> idx[i] < idx[j]
    decreases |rules|
  {
    if rules == [] then []
    else
      var init := rules[..|rules| - 1];
      var last := |rules| - 1;
      var before := Fired(init, ctx);
      assert forall j :: 0 <= j < |before| ==> rules[before[j]] == init[before[j]];
      if Holds(rules[last].guard, ctx) then before + [last] else before
  }

  /** No firing rule is missed by `Fired`. */
  lemma {:induction false} FiredComplete(rules: seq<Rule>, ctx: Context, k: nat)
    requires k < |rules| && Holds(rules[k].guard, ctx)
    ensures k in Fired(rules, ctx)
    decreases |rules|
  {
    var init := rules[..|rules| - 1];
    if k < |rules| - 1 {
      assert init[k] == rules[k];
      FiredComplete(init, ctx, k);
    }
  }

  /** Keep the first `k` entries, padding with `filler` when there are fewer (the `while` loop and `slice(0, 5)`). */
  function Padded(m: seq<GiftIdea>, filler: GiftIdea, k: nat): (r: seq<GiftIdea>)
    ensures |r| == k
    ensures forall i :: 0 <= i < k && i < |m| ==> r[i] == m[i]
    ensures forall i :: |m| <= i < k ==> r[i] == filler
  {
    if |m| >= k then m[..k] else m + seq(k - |m|, _ => filler)
  }

  /** The gifts the engine returns: the firing rules' gifts, padded with gift cards and cut to five. */
  function RuleBasedIdeas(request: GiftRequest): seq<GiftIdea>
  {
    Padded(Select(RuleTable, ContextOf(request)), GiftCard, 5)
  }

  /** The object literals of a list of gifts. */
  function RenderAll(ideas: seq<GiftIdea>, ctx: Context): (gifts: seq<RawGift>)
    ensures |gifts| == |ideas|
    ensures forall i :: 0 <= i < |ideas| ==> gifts[i] == Render(ideas[i], ctx)
  {
    seq(|ideas|, i requires 0 <= i < |ideas| => Render(ideas[i], ctx))
  }

  /** The rule engine's result. */
  function RuleBasedSpec(request: GiftRequest): seq<RawGift>
  {
    RenderAll(RuleBasedIdeas(request), ContextOf(request))
  }

  // ---------------------------------------------------------------------------
  // The engine as the source writes it

  lemma MentionsOne(s: string, a: string)
    ensures MentionsAny(s, [a]) <==> Contains(s, a)
  {
    assert [a][1..] == [];
  }

  lemma MentionsTwo(s: string, a: string, b: string)
    ensures MentionsAny(s, [a, b]) <==> Contains(s, a) || Contains(s, b)
  {
    assert [a, b][1..] == [b];
    MentionsOne(s, b);
  }

  lemma MentionsThree(s: string, a: string, b: string, c: string)
    ensures MentionsAny(s, [a, b, c]) <==> Contains(s, a) || Contains(s, b) || Contains(s, c)
  {
    assert [a, b, c][1..] == [b, c];
    MentionsTwo(s, b, c);
  }

  /** Tech enthusiast (src/services/aiService.ts:150-170). */
  method TechGifts(ctx: Context, picked: seq<GiftIdea>) returns (r: seq<GiftIdea>)
    requires picked == Select(RuleTable[..0], ctx)
    ensures r == Select(RuleTable[..2], ctx)
  {
    r := picked;
    if Contains(ctx.interests, "tech") || Contains(ctx.interests, "gadget") {
      if ctx.budget.max >= 15000 {
        r := r + [SmartFitnessWatch];
      }
      if ctx.budget.max >= 3000 {
        r := r + [WirelessEarbuds];
      }
    }
    assert r == Select(RuleTable[..2], ctx) by {
      MentionsTwo(ctx.interests, "tech", "gadget");
      assert RuleTable[0] == Rule(SmartFitnessWatch, Guard(InterestsField, TechWords, 15000, None));
      SelectStep(RuleTable, 0, ctx);
      assert RuleTable[1] == Rule(WirelessEarbuds, Guard(InterestsField, TechWords, 3000, None));
      SelectStep(RuleTable, 1, ctx);
    }
  }

  /** Reading and learning enthusiast (src/services/aiService.ts:172-191). */
  method ReadingGifts(ctx: Context, picked: seq<GiftIdea>) returns (r: seq<GiftIdea>)
    requires picked == Select(RuleTable[..2], ctx)
    ensures r == Select(RuleTable[..4], ctx)
  {
    r := picked;
    if Contains(ctx.interests, "read") || Contains(ctx.interests, "book") || Contains(ctx.interests, "learn") {
      r := r + [CuratedBookCollection];
      if ctx.budget.max >= 8000 {
        r := r + [EReader];
      }
    }
    assert r == Select(RuleTable[..4], ctx) by {
      MentionsThree(ctx.interests, "read", "book", "learn");
      assert RuleTable[2] == Rule(CuratedBookCollection, Guard(InterestsField, ReadingWords, 0, None));
      SelectStep(RuleTable, 2, ctx);
      assert RuleTable[3] == Rule(EReader, Guard(InterestsField, ReadingWords, 8000, None));
      SelectStep(RuleTable, 3, ctx);
    }
  }

  /** Fitness enthusiast (src/services/aiService.ts:193-212). */
  method FitnessGifts(ctx: Context, picked: seq<GiftIdea>) returns (r: seq<GiftIdea>)
    requires picked == Select(RuleTable[..4], ctx)
    ensures r == Select(RuleTable[..6], ctx)
  {
    r := picked;
    if Contains(ctx.interests, "fitness") || Contains(ctx.interests, "health") || Contains(ctx.interests, "sport") {
      r := r + [YogaMatSet];
      if ctx.budget.max >= 1200 {
        r := r + [ResistanceBandKit];
      }
    }
    assert r == Select(RuleTable[..6], ctx) by {
      MentionsThree(ctx.interests, "fitness", "health", "sport");
      assert RuleTable[4] == Rule(YogaMatSet, Guard(InterestsField, FitnessWords, 0, None));
      SelectStep(RuleTable, 4, ctx);
      assert RuleTable[5] == Rule(ResistanceBandKit, Guard(InterestsField, FitnessWords, 1200, None));
      SelectStep(RuleTable, 5, ctx);
    }
  }

  /** Art and creativity (src/services/aiService.ts:214-233). */
  method ArtGifts(ctx: Context, picked: seq<GiftIdea>) returns (r: seq<GiftIdea>)
    requires picked == Select(RuleTable[..6], ctx)
    ensures r == Select(RuleTable[..8], ctx)
  {
    r := picked;
    if Contains(ctx.interests, "art") || Contains(ctx.interests, "creative") || Contains(ctx.interests, "paint") {
      if ctx.budget.max >= 5000 {
        r := r + [ArtSupplyKit];
      }
      r := r + [PotteryKit];
    }
    assert r == Select(RuleTable[..8], ctx) by {
      MentionsThree(ctx.interests, "art", "creative", "paint");
      assert RuleTable[6] == Rule(ArtSupplyKit, Guard(InterestsField, ArtWords, 5000, None));
      SelectStep(RuleTable, 6, ctx);
      assert RuleTable[7] == Rule(PotteryKit, Guard(InterestsField, ArtWords, 0, None));
      SelectStep(RuleTable, 7, ctx);
    }
  }

  /** Music lover (src/services/aiService.ts:235-246). */
  method MusicGifts(ctx: Context, picked: seq<GiftIdea>) returns (r: seq<GiftIdea>)
    requires picked == Select(RuleTable[..8], ctx)
    ensures r == Select(RuleTable[..9], ctx)
  {
    r := picked;
    if Contains(ctx.interests, "music") || Contains(ctx.interests, "sing") || Contains(ctx.interests, "instrument") {
      if ctx.budget.max >= 2500 {
        r := r + [BluetoothSpeaker];
      }
    }
    assert r == Select(RuleTable[..9], ctx) by {
      MentionsThree(ctx.interests, "music", "sing", "instrument");
      assert RuleTable[8] == Rule(BluetoothSpeaker, Guard(InterestsField, MusicWords, 2500, None));
      SelectStep(RuleTable, 8, ctx);
    }
  }

  /** Cooking enthusiast (src/services/aiService.ts:248-267). */
  method CookingGifts(ctx: Context, picked: seq<GiftIdea>) returns (r: seq<GiftIdea>)
    requires picked == Select(RuleTable[..9], ctx)
    ensures r == Select(RuleTable[..11], ctx)
  {
    r := picked;
    if Contains(ctx.interests, "cook") || Contains(ctx.interests, "food") || Contains(ctx.interests, "culinary") {
      r := r + [SpiceCollection];
      if ctx.budget.max >= 4000 {
        r := r + [KnifeSet];
      }
    }
    assert r == Select(RuleTable[..11], ctx) by {
      MentionsThree(ctx.interests, "cook", "food", "culinary");
      assert RuleTable[9] == Rule(SpiceCollection, Guard(InterestsField, CookingWords, 0, None));
      SelectStep(RuleTable, 9, ctx);
      assert RuleTable[10] == Rule(KnifeSet, Guard(InterestsField, CookingWords, 4000, None));
      SelectStep(RuleTable, 10, ctx);
    }
  }

  /** Travel and adventure (src/services/aiService.ts:269-288). */
  method TravelGifts(ctx: Context, picked: seq<GiftIdea>) returns (r: seq<GiftIdea>)
    requires picked == Select(RuleTable[..11], ctx)
    ensures r == Select(RuleTable[..13], ctx)
  {
    r := picked;
    if Contains(ctx.interests, "travel") || Contains(ctx.interests, "adventure") || Contains(ctx.interests, "explore") {
      r := r + [TravelOrganizer];
      if ctx.budget.max >= 8000 {
        r := r + [InstantCamera];
      }
    }
    assert r == Select(RuleTable[..13], ctx) by {
      MentionsThree(ctx.interests, "travel", "adventure", "explore");
      assert RuleTable[11] == Rule(TravelOrganizer, Guard(InterestsField, TravelWords, 0, None));
      SelectStep(RuleTable, 11, ctx);
      assert RuleTable[12] == Rule(InstantCamera, Guard(InterestsField, TravelWords, 8000, None));
      SelectStep(RuleTable, 12, ctx);
    }
  }

  /** Relationship-based (src/services/aiService.ts:290-299). */
  method RelationshipGifts(ctx: Context, picked: seq<GiftIdea>) returns (r: seq<GiftIdea>)
    requires picked == Select(RuleTable[..13], ctx)
    ensures r == Select(RuleTable[..14], ctx)
  {
    r := picked;
    if Contains(ctx.relationship, "parent") || Contains(ctx.relationship, "mom") || Contains(ctx.relationship, "dad") {
      r := r + [AromatherapyDiffuser];
    }
    assert r == Select(RuleTable[..14], ctx) by {
      MentionsThree(ctx.relationship, "parent", "mom", "dad");
      assert RuleTable[13] == Rule(AromatherapyDiffuser, Guard(RelationshipField, ParentWords, 0, None));
      SelectStep(RuleTable, 13, ctx);
    }
  }

  /** Birthday (src/services/aiService.ts:301-309). */
  method OccasionGifts(ctx: Context, picked: seq<GiftIdea>) returns (r: seq<GiftIdea>)
    requires picked == Select(RuleTable[..14], ctx)
    ensures r == Select(RuleTable, ctx)
  {
    r := picked;
    if Contains(ctx.occasion, "birthday") && ctx.age >= 18 && ctx.age <= 30 {
      r := r + [PhotoFrames];
    }
    assert r == Select(RuleTable, ctx) by {
      MentionsOne(ctx.occasion, "birthday");
      assert RuleTable[14] == Rule(PhotoFrames, Guard(OccasionField, BirthdayWords, 0, Some(AgeWindow(18, 30))));
      SelectStep(RuleTable, 14, ctx);
      assert RuleTable[..15] == RuleTable;
    }
  }

  /** The rule blocks in source order (src/services/aiService.ts:148-309). */
  method ChooseGifts(ctx: Context) returns (picked: seq<GiftIdea>)
    ensures picked == Select(RuleTable, ctx)
  {
    picked := [];
    assert RuleTable[..0] == [];
    picked := TechGifts(ctx, picked);
    picked := ReadingGifts(ctx, picked);
    picked := FitnessGifts(ctx, picked);
    picked := ArtGifts(ctx, picked);
    picked := MusicGifts(ctx, picked);
    picked := CookingGifts(ctx, picked);
    picked := TravelGifts(ctx, picked);
    picked := RelationshipGifts(ctx, picked);
    picked := OccasionGifts(ctx, picked);
  }

  /** The padding loop and `slice(0, 5)` (src/services/aiService.ts:312-322). */
  method PadToFive(matched: seq<GiftIdea>) returns (picked: seq<GiftIdea>)
    ensures picked == Padded(matched, GiftCard, 5)
  {
    picked := matched;
    while |picked| < 5
      invariant |matched| <= |picked|
      invariant picked[..|matched|] == matched
      invariant forall i :: |matched| <= i < |picked| ==> picked[i] == GiftCard
      invariant |matched| < 5 ==> |picked| <= 5
      decreases 5 - |picked|
    {
      picked := picked + [GiftCard];
    }
    picked := picked[..5];
  }

  /**
   * `generateRuleBasedRecommendations`: the lower-cased fields and the budget,
   * the rule blocks, the padding, and the object literals of the chosen
   * gifts, built from the same context.
   */
  method GenerateRuleBased(request: GiftRequest) returns (recommendations: seq<RawGift>)
    ensures recommendations == RuleBasedSpec(request)
    ensures |recommendations| == 5
  {
    var interests := ToLower(request.interests);
    var age := request.age;
    var relationship := ToLower(request.relationship);
    var occasion := ToLower(request.occasion);
    var budget := BudgetFor(request.budget);
    var ctx := Context(interests, relationship, occasion, age, budget);
    var matched := ChooseGifts(ctx);
    var picked := PadToFive(matched);
    recommendations := seq(5, i requires 0 <= i < 5 => Render(picked[i], ctx));
  }

  // ---------------------------------------------------------------------------
  // Properties of the rule engine's result

  /** Each entry of the result is the object literal of the gift chosen at that position. */
  lemma RuleBasedRendered(request: GiftRequest, i: nat)
    requires i < 5
    ensures |RuleBasedSpec(request)| == 5
    ensures RuleBasedSpec(request)[i] == Render(RuleBasedIdeas(request)[i], ContextOf(request))
  {
  }

  /** Each gift has at most one rule, and the gift card has none. */
  lemma RuleGiftsDistinct()
    ensures forall a, b :: 0 <= a < b < |RuleTable| ==> RuleTable[a].gift != RuleTable[b].gift
    ensures forall a :: 0 <= a < |RuleTable| ==> RuleTable[a].gift != GiftCard
  {
  }

  /** Every chosen gift is a gift card or the gift of a rule that fires. */
  lemma RuleBasedEntries(request: GiftRequest)
    ensures var ctx := ContextOf(request);
      forall i :: 0 <= i < |RuleBasedIdeas(request)| ==>
        RuleBasedIdeas(request)[i] == GiftCard ||
        exists k :: 0 <= k < |RuleTable| && Holds(RuleTable[k].guard, ctx) && RuleBasedIdeas(request)[i] == RuleTable[k].gift
  {
    var ctx := ContextOf(request);
    var m := Select(RuleTable, ctx);
    var idx := Fired(RuleTable, ctx);
    forall i | 0 <= i < 5 && i < |m|
      ensures exists k :: 0 <= k < |RuleTable| && Holds(RuleTable[k].guard, ctx) && RuleBasedIdeas(request)[i] == RuleTable[k].gift
    {
      var k := idx[i];
      assert Holds(RuleTable[k].guard, ctx) && RuleBasedIdeas(request)[i] == RuleTable[k].gift;
    }
  }

  /**
   * Price cap: every entry's price is a rupee sign followed by the smaller of
   * its gift's base price and the budget's maximum, and it reads back as that
   * number, never above the maximum.
   */
  lemma RuleBasedPriceCap(request: GiftRequest)
    ensures var max := BudgetFor(request.budget).max;
      forall i :: 0 <= i < |RuleBasedSpec(request)| ==>
        RuleBasedSpec(request)[i].estimatedPrice == Some(PriceTag(Min(BasePrice(RuleBasedIdeas(request)[i]), max))) &&
        ExtractNumericPrice(RuleBasedSpec(request)[i].estimatedPrice.value).Num? &&
        ExtractNumericPrice(RuleBasedSpec(request)[i].estimatedPrice.value).value <= max
  {
    var ctx := ContextOf(request);
    var r := RuleBasedSpec(request);
    var ideas := RuleBasedIdeas(request);
    forall i | 0 <= i < |r|
      ensures r[i].estimatedPrice == Some(PriceTag(Min(BasePrice(ideas[i]), ctx.budget.max)))
      ensures ExtractNumericPrice(r[i].estimatedPrice.value) == Num(Min(BasePrice(ideas[i]), ctx.budget.max))
    {
      assert r[i] == Render(ideas[i], ctx);
      ExtractOfPriceTag(Min(BasePrice(ideas[i]), ctx.budget.max));
    }
  }

  /** Padding: the gift cards are exactly the entries after the last firing rule's gift. */
  lemma RuleBasedPaddingAfterMatches(request: GiftRequest)
    ensures var m := Select(RuleTable, ContextOf(request));
      forall i :: 0 <= i < |RuleBasedSpec(request)| ==>
        (RuleBasedSpec(request)[i].name == Name(GiftCard) <==> i >= |m|)
  {
    var ctx := ContextOf(request);
    var ideas := RuleBasedIdeas(request);
    var idx := Fired(RuleTable, ctx);
    RuleGiftsDistinct();
    forall i | 0 <= i < 5
      ensures RuleBasedSpec(request)[i].name == Name(GiftCard) <==> i >= |idx|
    {
      assert RuleBasedSpec(request)[i].name == Name(ideas[i]);
      NameInjective(ideas[i], GiftCard);
      if i < |idx| {
        assert ideas[i] == RuleTable[idx[i]].gift;
      }
    }
  }

  /** Where a gift's rule stands in the table (the table's length for the gift card). */
  function RulePosition(g: GiftIdea): (k: nat)
    ensures k <= |RuleTable|
    ensures k < |RuleTable| ==> RuleTable[k].gift == g
    ensures forall j :: 0 <= j < k ==> RuleTable[j].gift != g
  {
    FirstRuleFor(RuleTable, g)
  }

  function FirstRuleFor(rules: seq<Rule>, g: GiftIdea): (k: nat)
    ensures k <= |rules|
    ensures k < |rules| ==> rules[k].gift == g
    ensures forall j :: 0 <= j < k ==> rules[j].gift != g
    decreases |rules|
  {
    if rules == [] then 0
    else if rules[0].gift == g then 0
    else 1 + FirstRuleFor(rules[1..], g)
  }

  /** A rule's gift stands at that rule's position. */
  lemma RulePositionOfRule(k: nat)
    requires k < |RuleTable|
    ensures RulePosition(RuleTable[k].gift) == k
  {
    RuleGiftsDistinct();
  }

  /** Ordering: the rule gifts keep the order of the rules in the table. */
  lemma RuleBasedInRuleOrder(request: GiftRequest)
    ensures var m := Select(RuleTable, ContextOf(request));
      forall i, j :: 0 <= i < j < |RuleBasedIdeas(request)| && j < |m| ==>
        RulePosition(RuleBasedIdeas(request)[i]) < RulePosition(RuleBasedIdeas(request)[j])
  {
    var ctx := ContextOf(request);
    var m := Select(RuleTable, ctx);
    var ideas := RuleBasedIdeas(request);
    var idx := Fired(RuleTable, ctx);
    forall i | 0 <= i < 5 && i < |m|
      ensures RulePosition(ideas[i]) == idx[i]
    {
      RulePositionOfRule(idx[i]);
    }
  }

  /** No gift name is recommended twice, except the gift card padding. */
  lemma RuleBasedNamesDistinct(request: GiftRequest)
    ensures var m := Select(RuleTable, ContextOf(request));
      forall i, j :: 0 <= i < j < |RuleBasedSpec(request)| && i < |m| ==>
        RuleBasedSpec(request)[i].name != RuleBasedSpec(request)[j].name
  {
    var ctx := ContextOf(request);
    var m := Select(RuleTable, ctx);
    var ideas := RuleBasedIdeas(request);
    RuleBasedInRuleOrder(request);
    RuleBasedPaddingAfterMatches(request);
    forall i, j | 0 <= i < j < 5 && i < |m|
      ensures RuleBasedSpec(request)[i].name != RuleBasedSpec(request)[j].name
    {
      assert RuleBasedSpec(request)[i].name == Name(ideas[i]);
      assert RuleBasedSpec(request)[j].name == Name(ideas[j]);
      NameInjective(ideas[i], ideas[j]);
      if j < |m| {
        assert RulePosition(ideas[i]) < RulePosition(ideas[j]);
      }
    }
  }

  /** When at most five rules fire, every firing rule's gift is in the result. */
  lemma RuleBasedKeepsAllWhenFew(request: GiftRequest, k: nat)
    requires k < |RuleTable| && Holds(RuleTable[k].guard, ContextOf(request))
    requires |Select(RuleTable, ContextOf(request))| <= 5
    ensures exists i :: 0 <= i < |RuleBasedIdeas(request)| && RuleBasedIdeas(request)[i] == RuleTable[k].gift
  {
    var ctx := ContextOf(request);
    var idx := Fired(RuleTable, ctx);
    FiredComplete(RuleTable, ctx, k);
    var i :| 0 <= i < |idx| && idx[i] == k;
    assert RuleBasedIdeas(request)[i] == RuleTable[k].gift;
  }

  /** A strictly increasing list of naturals has its j-th entry at least j. */
  lemma {:induction false} IncreasingAtLeastIndex(idx: seq<nat>, j: nat)
    requires forall a, b :: 0 <= a < b < |idx| ==> idx[a] < idx[b]
    requires j < |idx|
    ensures idx[j] >= j
  {
    if j > 0 {
      IncreasingAtLeastIndex(idx, j - 1);
      assert idx[j - 1] < idx[j];
    }
  }

  /** A firing rule among the first five is never cut by `slice(0, 5)`: its gift lands at or before the rule's own position. */
  lemma RuleBasedKeepsEarly(request: GiftRequest, k: nat)
    requires k < 5 && Holds(RuleTable[k].guard, ContextOf(request))
    ensures exists i :: 0 <= i <= k && RuleBasedIdeas(request)[i] == RuleTable[k].gift
  {
    var ctx := ContextOf(request);
    var idx := Fired(RuleTable, ctx);
    FiredComplete(RuleTable, ctx, k);
    var j :| 0 <= j < |idx| && idx[j] == k;
    IncreasingAtLeastIndex(idx, j);
    assert RuleBasedIdeas(request)[j] == RuleTable[k].gift;
  }

  /** A gift is recommended by name exactly when it is one of the chosen gifts. */
  lemma NamePresentIff(request: GiftRequest, g: GiftIdea)
    ensures (exists i :: 0 <= i < |RuleBasedSpec(request)| && RuleBasedSpec(request)[i].name == Name(g))
      <==> (exists i :: 0 <= i < |RuleBasedIdeas(request)| && RuleBasedIdeas(request)[i] == g)
  {
    var ideas := RuleBasedIdeas(request);
    forall i | 0 <= i < 5
      ensures RuleBasedSpec(request)[i].name == Name(g) <==> ideas[i] == g
    {
      assert RuleBasedSpec(request)[i].name == Name(ideas[i]);
      NameInjective(g, ideas[i]);
    }
  }

  /** A rule's gift is chosen only if that rule fires. */
  lemma ChosenOnlyIfFired(request: GiftRequest, k: nat)
    requires k < |RuleTable|
    requires exists i :: 0 <= i < |RuleBasedIdeas(request)| && RuleBasedIdeas(request)[i] == RuleTable[k].gift
    ensures Holds(RuleTable[k].guard, ContextOf(request))
  {
    RuleBasedEntries(request);
    RuleGiftsDistinct();
  }

  /** Gating: the smart watch is recommended exactly when the interests mention tech or a gadget and the budget reaches 15,000. */
  lemma SmartWatchGate(request: GiftRequest)
    ensures (exists i :: 0 <= i < |RuleBasedIdeas(request)| && RuleBasedIdeas(request)[i] == SmartFitnessWatch)
      <==> (Contains(ToLower(request.interests), "tech") || Contains(ToLower(request.interests), "gadget"))
           && BudgetFor(request.budget).max >= 15000
  {
    var ctx := ContextOf(request);
    var watch := Rule(SmartFitnessWatch, Guard(InterestsField, TechWords, 15000, None));
    assert RuleTable[0] == watch;
    MentionsTwo(ctx.interests, "tech", "gadget");
    if exists i :: 0 <= i < |RuleBasedIdeas(request)| && RuleBasedIdeas(request)[i] == SmartFitnessWatch {
      ChosenOnlyIfFired(request, 0);
    }
    if Holds(watch.guard, ctx) {
      var idx := Fired(RuleTable, ctx);
      FiredComplete(RuleTable, ctx, 0);
      assert idx[0] == 0;
      assert RuleBasedIdeas(request)[0] == SmartFitnessWatch;
    }
  }

  /** Gating: the e-reader is recommended exactly when the interests mention reading and the budget reaches 8,000. */
  lemma EReaderGate(request: GiftRequest)
    ensures (exists i :: 0 <= i < |RuleBasedIdeas(request)| && RuleBasedIdeas(request)[i] == EReader)
      <==> (Contains(ToLower(request.interests), "read") || Contains(ToLower(request.interests), "book") ||
            Contains(ToLower(request.interests), "learn"))
           && BudgetFor(request.budget).max >= 8000
  {
    var ctx := ContextOf(request);
    var ereader := Rule(EReader, Guard(InterestsField, ReadingWords, 8000, None));
    assert RuleTable[3] == ereader;
    MentionsThree(ctx.interests, "read", "book", "learn");
    if exists i :: 0 <= i < |RuleBasedIdeas(request)| && RuleBasedIdeas(request)[i] == EReader {
      ChosenOnlyIfFired(request, 3);
    }
    if Holds(ereader.guard, ctx) {
      RuleBasedKeepsEarly(request, 3);
    }
  }

  /** Gating: the photo frames are recommended only for a birthday and an age from 18 to 30. */
  lemma PhotoFrameGate(request: GiftRequest)
    requires exists i :: 0 <= i < |RuleBasedIdeas(request)| && RuleBasedIdeas(request)[i] == PhotoFrames
    ensures Contains(ToLower(request.occasion), "birthday")
    ensures 18 <= request.age <= 30
  {
    var frames := Rule(PhotoFrames, Guard(OccasionField, BirthdayWords, 0, Some(AgeWindow(18, 30))));
    assert RuleTable[14] == frames;
    ChosenOnlyIfFired(request, 14);
    MentionsOne(ToLower(request.occasion), "birthday");
  }

  // ---------------------------------------------------------------------------
  // The budget values the form sends (src/components/GiftFinderForm.tsx:119-123)

  const FormBudgetValues: set<string> := {"under-50", "50-100", "100-200", "200-500", "over-500"}

  /** None of the form's budget values is a label of the budget table, so each gets the default range. */
  lemma FormBudgetsGetDefault(value: string)
    requires value in FormBudgetValues
    ensures BudgetFor(value) == BudgetRange(1000, 5000)
  {
    assert value !in BudgetRanges.Keys by {
      assert value[0] != 'U' && value[0] != '₹' && value[0] != 'A';
    }
  }

  /** A request with a budget value from the form never gets the smart watch, the e-reader or the instant camera. */
  lemma FormRequestsMissBudgetGates(request: GiftRequest)
    requires request.budget in FormBudgetValues
    ensures forall i :: 0 <= i < |RuleBasedIdeas(request)| ==>
      RuleBasedIdeas(request)[i] != SmartFitnessWatch &&
      RuleBasedIdeas(request)[i] != EReader &&
      RuleBasedIdeas(request)[i] != InstantCamera
  {
    FormBudgetsGetDefault(request.budget);
    SmartWatchGate(request);
    EReaderGate(request);
    assert RuleTable[12] == Rule(InstantCamera, Guard(InterestsField, TravelWords, 8000, None));
    if exists i :: 0 <= i < |RuleBasedIdeas(request)| && RuleBasedIdeas(request)[i] == InstantCamera {
      ChosenOnlyIfFired(request, 12);
    }
  }
}
