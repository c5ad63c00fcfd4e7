/**
  Recommendation selection of the carbon footprint estimator (class
  `AIAdvisor`): which categories the prompt asks the advice provider to
  focus on, the offline fallback built from fixed per-category templates,
  and the rule that decides between the provider's reply and the fallback.

  The provider itself (an OpenAI chat completion) is not modelled; what
  its call came to is a `ProviderReply` value given as a parameter.
 */
module AIAdvisor {
  import opened Wrappers
  import opened Decimal
  import opened CarbonCalculator
  import opened Ranking

  /** A `{title, description, potential_savings}` dictionary. */
  datatype Recommendation = Recommendation(title: string, description: string, potentialSavings: string)

  /** What the provider call and the decoding of its reply came to. */
  datatype ProviderReply =
    | CallFailed
      // the call or reading its first choice raised an exception
    | Malformed
      // `json.loads` raised `JSONDecodeError`
    | Parsed(recommendations: Option<seq<Recommendation>>)
      // decoded; the value under the "recommendations" key, when there is one

  // ---------------------------------------------------------------------
  // Savings texts
  // ---------------------------------------------------------------------

  const SavingsSuffix: string := " tonnes CO\U{2082} per year"

  /** `f'{x:.1f} tonnes CO₂ per year'` */
  function SavingsText(x: real): string {
    FixedOne(NearestInt(x * 10.0)) + SavingsSuffix
  }

  /** Reads a savings text back as a whole number of tenths of a tonne. */
  function ParseSavings(text: string): Option<int> {
    if |text| >= |SavingsSuffix| && text[|text| - |SavingsSuffix|..] == SavingsSuffix
    then ParseFixedOne(text[..|text| - |SavingsSuffix|])
    else None
  }

  /** A savings text carries its amount rounded to a tenth of a tonne, and nothing is lost. */
  lemma SavingsTextRoundTrip(x: real)
    ensures ParseSavings(SavingsText(x)) == Some(NearestInt(x * 10.0))
  {
    var amount := FixedOne(NearestInt(x * 10.0));
    var text := SavingsText(x);
    assert text[|text| - |SavingsSuffix|..] == SavingsSuffix;
    assert text[..|text| - |SavingsSuffix|] == amount;
    FixedOneRoundTrip(NearestInt(x * 10.0));
  }

  // ---------------------------------------------------------------------
  // _get_category_recommendation
  // ---------------------------------------------------------------------

  const TravelDescription: string :=
    "Consider reducing the number of flights per year, choosing direct routes when possible, "
    + "and exploring train alternatives for shorter distances. Video conferencing can replace "
    + "some business travel."
  const TransportDescription: string :=
    "Consider walking, cycling, or using public transport more often. If driving is necessary, "
    + "consider carpooling, combining trips, or switching to an electric vehicle."
  const DietDescription: string :=
    "Reducing red meat consumption and choosing more plant-based meals can significantly lower "
    + "your carbon footprint. Try \"Meatless Monday\" or explore delicious vegetarian recipes."
  const ShoppingDescription: string :=
    "Buy less, choose quality over quantity, shop second-hand when possible, and avoid impulse "
    + "purchases. Consider the lifecycle of products before buying."
  const HomeEnergyDescription: string :=
    "Improve insulation, use energy-efficient appliances, lower heating temperatures by "
    + "1-2\U{00B0}C, and consider renewable energy options like solar panels or green energy suppliers."

  /** The fixed text of one entry of `recommendations_map`. */
  datatype Template = Template(title: string, description: string)

  /** `recommendations_map.get(category)`, without the savings text. */
  function TemplateFor(category: string): Option<Template> {
    if category == "travel" then Some(Template("Reduce Flight Emissions", TravelDescription))
    else if category == "transport" then Some(Template("Optimize Daily Transportation", TransportDescription))
    else if category == "diet" then Some(Template("Adjust Your Diet", DietDescription))
    else if category == "shopping" then Some(Template("Mindful Shopping Habits", ShoppingDescription))
    else if category == "home_energy" then Some(Template("Improve Home Energy Efficiency", HomeEnergyDescription))
    else None
  }

  /** Exactly the five breakdown categories have a template. */
  lemma TemplateForCategories(category: string)
    ensures TemplateFor(category).Some? <==> category in CategoryKeys
  {
  }

  /**
    The amount each entry of `recommendations_map` writes into its savings
    text: a fixed share of the category's emissions (0 for a category the
    map does not have).
   */
  function SavingsShare(category: string, emissions: real): (share: real)
    ensures TemplateFor(category).None? ==> share == 0.0
    ensures TemplateFor(category).Some? && emissions >= 0.0 ==> emissions / 4.0 <= share <= emissions / 2.0
    ensures TemplateFor(category).Some? && emissions <= 0.0 ==> emissions / 2.0 <= share <= emissions / 4.0
  {
    if category == "travel" then emissions * 0.3
    else if category == "transport" then emissions * 0.4
    else if category == "diet" then emissions * 0.5
    else if category == "shopping" then emissions * 0.3
    else if category == "home_energy" then emissions * 0.25
    else 0.0
  }

  /** A larger amount of emissions never gives a smaller share. */
  lemma SavingsShareMonotone(category: string, x: real, y: real)
    requires x <= y
    ensures SavingsShare(category, x) <= SavingsShare(category, y)
  {
  }

  /**
    `_get_category_recommendation`: the template of a category, its savings
    text written from the category's share of its emissions; `None` for a
    category that has no template.
   */
  function CategoryRecommendation(category: string, emissions: real): (r: Option<Recommendation>)
    ensures r.Some? <==> TemplateFor(category).Some?
    ensures r.Some? ==>
      (r.value.title == TemplateFor(category).value.title
       && r.value.description == TemplateFor(category).value.description
       && r.value.potentialSavings == SavingsText(SavingsShare(category, emissions)))
  {
    var template := TemplateFor(category);
    if template.Some?
    then Some(Recommendation(template.value.title, template.value.description,
                             SavingsText(SavingsShare(category, emissions))))
    else None
  }

  /** A recommendation's savings text reads back as the category's share, in tenths of a tonne. */
  lemma CategorySavingsReadBack(category: string, emissions: real)
    requires TemplateFor(category).Some?
    ensures ParseSavings(CategoryRecommendation(category, emissions).value.potentialSavings)
         == Some(NearestInt(SavingsShare(category, emissions) * 10.0))
  {
    var share := SavingsShare(category, emissions);
    SavingsTextRoundTrip(share);
  }

  /** Title and description are fixed per category; only the savings depend on the emissions. */
  lemma TemplateTextIsFixed(category: string, x: real, y: real)
    requires category in CategoryKeys
    ensures CategoryRecommendation(category, x).Some? && CategoryRecommendation(category, y).Some?
    ensures CategoryRecommendation(category, x).value.title == CategoryRecommendation(category, y).value.title
    ensures CategoryRecommendation(category, x).value.description
         == CategoryRecommendation(category, y).value.description
  {
    TemplateForCategories(category);
  }

  /** Savings shown grow with the emissions they are a share of (to the tenth of a tonne shown). */
  lemma SavingsMonotone(category: string, x: real, y: real)
    requires TemplateFor(category).Some? && x <= y
    ensures ParseSavings(CategoryRecommendation(category, x).value.potentialSavings).Some?
    ensures ParseSavings(CategoryRecommendation(category, y).value.potentialSavings).Some?
    ensures ParseSavings(CategoryRecommendation(category, x).value.potentialSavings).value
         <= ParseSavings(CategoryRecommendation(category, y).value.potentialSavings).value
  {
    CategorySavingsReadBack(category, x);
    CategorySavingsReadBack(category, y);
    SavingsShareMonotone(category, x, y);
    NearestIntMonotone(SavingsShare(category, x) * 10.0, SavingsShare(category, y) * 10.0);
  }

  // ---------------------------------------------------------------------
  // Selection: _create_prompt's top categories and the fallback
  // ---------------------------------------------------------------------

  /** `[cat for cat, emissions in sorted_categories if emissions > 0][:3]` */
  function TopCategories(b: seq<Entry>): (top: seq<string>)
    ensures |top| <= 3
  {
    Take(Categories(Filter(IsPositive, SortByEmissionsDesc(b))), 3)
  }

  /**
    The top categories the prompt names, or `None` when building the prompt
    raises `KeyError` because the breakdown lacks one of the five keys it
    prints.
   */
  function PromptTopCategories(results: EmissionResult): Option<seq<string>> {
    if forall k :: k in CategoryKeys ==> k in Categories(results.breakdown)
    then Some(TopCategories(results.breakdown))
    else None
  }

  /** An item the fallback turns into a recommendation. */
  predicate Qualifies(e: Entry) {
    e.emissions > 0.0 && TemplateFor(e.category).Some?
  }

  /** The items behind the fallback: positive ones with a template among the three largest. */
  function FallbackEntries(b: seq<Entry>): (chosen: seq<Entry>)
    ensures |chosen| <= 3
  {
    Filter(Qualifies, Take(SortByEmissionsDesc(b), 3))
  }

  function RecommendationsFor(chosen: seq<Entry>): (recs: seq<Recommendation>)
    requires forall e :: e in chosen ==> Qualifies(e)
    ensures |recs| == |chosen|
    ensures forall i :: 0 <= i < |recs| ==>
      Some(recs[i]) == CategoryRecommendation(chosen[i].category, chosen[i].emissions)
  {
    var recs := seq(|chosen|, i requires 0 <= i < |chosen| && Qualifies(chosen[i]) =>
      CategoryRecommendation(chosen[i].category, chosen[i].emissions).value);
    assert forall i :: 0 <= i < |chosen| ==> chosen[i] in chosen && Qualifies(chosen[i]);
    recs
  }

  /** The recommendations `_get_fallback_recommendations` returns for a breakdown. */
  function FallbackFor(b: seq<Entry>): (recs: seq<Recommendation>)
    ensures |recs| <= 3
  {
    RecommendationsFor(FallbackEntries(b))
  }

  lemma RecommendationsForSnoc(chosen: seq<Entry>, x: Entry)
    requires forall e :: e in chosen ==> Qualifies(e)
    requires Qualifies(x)
    ensures RecommendationsFor(chosen + [x])
         == RecommendationsFor(chosen) + [CategoryRecommendation(x.category, x.emissions).value]
  {
    var l := chosen + [x];
    assert forall e :: e in l ==> e in chosen || e == x;
    assert |RecommendationsFor(l)| == |chosen| + 1;
    forall i | 0 <= i < |l|
      ensures RecommendationsFor(l)[i]
           == (RecommendationsFor(chosen) + [CategoryRecommendation(x.category, x.emissions).value])[i]
    {
      if i < |chosen| {
        assert l[i] == chosen[i];
      }
    }
  }

  lemma FilterQualifiesSnoc(s: seq<Entry>, x: Entry)
    ensures Filter(Qualifies, s + [x]) == Filter(Qualifies, s) + (if Qualifies(x) then [x] else [])
  {
    FilterAppend(Qualifies, s, [x]);
    FilterCons(Qualifies, x, []);
    assert [x] + [] == [x];
  }

  /** One step of the fallback loop: the next item adds its template exactly when it qualifies. */
  lemma FallbackStep(top: seq<Entry>, i: nat)
    requires i < |top|
    ensures RecommendationsFor(Filter(Qualifies, top[..i + 1]))
         == RecommendationsFor(Filter(Qualifies, top[..i]))
            + (if Qualifies(top[i]) then [CategoryRecommendation(top[i].category, top[i].emissions).value] else [])
  {
    assert top[..i + 1] == top[..i] + [top[i]];
    FilterQualifiesSnoc(top[..i], top[i]);
    if Qualifies(top[i]) {
      RecommendationsForSnoc(Filter(Qualifies, top[..i]), top[i]);
    }
  }

  /**
    `_get_fallback_recommendations`: walks the three largest items, appends
    the template of each positive one that has a template, and caps the list
    at three.  The lifestyle answers are read but not used.
   */
  method FallbackRecommendations(results: EmissionResult) returns (recommendations: seq<Recommendation>)
    ensures recommendations == FallbackFor(results.breakdown)
    ensures |recommendations| <= 3
  {
    var breakdown := results.breakdown;
    recommendations := [];
    var sortedCategories := SortByEmissionsDesc(breakdown);
    var top := Take(sortedCategories, 3);
    var i := 0;
    while i < |top|
      invariant 0 <= i <= |top|
      invariant recommendations == RecommendationsFor(Filter(Qualifies, top[..i]))
    {
      var category, emissions := top[i].category, top[i].emissions;
      FallbackStep(top, i);
      if emissions > 0.0 {
        var rec := CategoryRecommendation(category, emissions);
        if rec.Some? {
          recommendations := recommendations + [rec.value];
        }
      }
      i := i + 1;
    }
    assert top[..|top|] == top;
    recommendations := Take(recommendations, 3);
  }

  /**
    `get_recommendations`: the provider's list verbatim when the decoded
    reply has a "recommendations" key, an empty list when it has none, and
    the fallback when building the prompt, calling the provider or decoding
    its reply raised.
   */
  method GetRecommendations(results: EmissionResult, reply: ProviderReply)
    returns (recommendations: seq<Recommendation>)
    ensures PromptTopCategories(results).None? ==> recommendations == FallbackFor(results.breakdown)
    ensures PromptTopCategories(results).Some? ==>
      match reply
      case CallFailed => recommendations == FallbackFor(results.breakdown)
      case Malformed => recommendations == FallbackFor(results.breakdown)
      case Parsed(None) => recommendations == []
      case Parsed(Some(items)) => recommendations == items
    ensures |recommendations| <= 3 || reply == Parsed(Some(recommendations))
  {
    var prompt := PromptTopCategories(results);
    if prompt.None? {
      recommendations := FallbackRecommendations(results);
      return;
    }
    match reply
    case CallFailed =>
      recommendations := FallbackRecommendations(results);
    case Malformed =>
      recommendations := FallbackRecommendations(results);
    case Parsed(data) =>
      if data.Some? {
        recommendations := data.value;
      } else {
        recommendations := [];
      }
  }

  // ---------------------------------------------------------------------
  // Properties of the selection
  // ---------------------------------------------------------------------

  lemma SortedPrefixFacts(b: seq<Entry>)
    ensures SortedDesc(Take(SortByEmissionsDesc(b), 3))
    ensures forall e :: e in Take(SortByEmissionsDesc(b), 3) ==> e in b
  {
    var s := SortByEmissionsDesc(b);
    SortRanks(b);
    var t := Take(s, 3);
    forall e | e in t ensures e in b {
      var k :| 0 <= k < |t| && t[k] == e;
      assert e == s[k];
      assert e in multiset(s);
    }
  }

  /**
    Every fallback item is an item of the breakdown with positive emissions
    and one of the five categories, the items come largest first, and every
    such item among the three largest is used.
   */
  lemma FallbackEntriesFacts(b: seq<Entry>)
    ensures forall e :: e in FallbackEntries(b) ==> e in b && e.emissions > 0.0 && e.category in CategoryKeys
    ensures SortedDesc(FallbackEntries(b))
    ensures forall e :: e in Take(SortByEmissionsDesc(b), 3) && Qualifies(e) ==> e in FallbackEntries(b)
  {
    SortedPrefixFacts(b);
    FilterSortedDesc(Qualifies, Take(SortByEmissionsDesc(b), 3));
    forall e | e in FallbackEntries(b) ensures e.category in CategoryKeys {
      TemplateForCategories(e.category);
    }
  }

  /**
    Ties keep breakdown order in the fallback: the items of the fallback
    with emissions `v` are the qualifying ones among a prefix of the
    breakdown's items with emissions `v`, in breakdown order.
   */
  lemma FallbackTieOrder(b: seq<Entry>, v: real)
    ensures Ties(FallbackEntries(b), v) == Filter(Qualifies, Ties(Take(SortByEmissionsDesc(b), 3), v))
    ensures Ties(Take(SortByEmissionsDesc(b), 3), v) <= Ties(b, v)
  {
    var s := SortByEmissionsDesc(b);
    TiesFilter(Qualifies, Take(s, 3), v);
    TiesTakePrefix(s, 3, v);
    SortIsStable(b, v);
  }

  /** A breakdown with nothing positive gets no fallback recommendation. */
  lemma NothingPositiveNoFallback(b: seq<Entry>)
    requires forall e :: e in b ==> e.emissions <= 0.0
    ensures FallbackFor(b) == []
  {
    SortedPrefixFacts(b);
    FilterNone(Qualifies, Take(SortByEmissionsDesc(b), 3));
  }

  /**
    The prompt filters before it takes three and the fallback takes three
    before it filters; on a ranked list both name the same categories, in
    the same order, whenever every category has a template.
   */
  lemma FallbackMatchesPromptFocus(b: seq<Entry>)
    requires forall e :: e in b ==> e.category in CategoryKeys
    ensures Categories(FallbackEntries(b)) == TopCategories(b)
  {
    var s := SortByEmissionsDesc(b);
    SortRanks(b);
    SortedPrefixFacts(b);
    var t := Take(s, 3);
    forall e | e in t ensures Qualifies(e) == IsPositive(e) {
      TemplateForCategories(e.category);
    }
    FilterAgree(Qualifies, IsPositive, t);
    PositiveTakeCommute(s, 3);
    CategoriesTake(Filter(IsPositive, s), 3);
  }

  lemma CategoriesTake(s: seq<Entry>, n: nat)
    ensures Categories(Take(s, n)) == Take(Categories(s), n)
  {
  }

  /** The category with strictly the largest positive emissions is recommended first. */
  lemma LargestCategoryFirst(b: seq<Entry>, k: nat)
    requires k < |b| && b[k].emissions > 0.0 && b[k].category in CategoryKeys
    requires forall j :: 0 <= j < |b| && j != k ==> b[j].emissions < b[k].emissions
    ensures FallbackFor(b) != []
    ensures FallbackFor(b)[0] == CategoryRecommendation(b[k].category, b[k].emissions).value
  {
    StrictMaximumRanksFirst(b, k);
    TemplateForCategories(b[k].category);
    FallbackHead(b);
  }

  /** The item with strictly the largest emissions heads the ranking. */
  lemma StrictMaximumRanksFirst(b: seq<Entry>, k: nat)
    requires k < |b|
    requires forall j :: 0 <= j < |b| && j != k ==> b[j].emissions < b[k].emissions
    ensures SortByEmissionsDesc(b) != [] && SortByEmissionsDesc(b)[0] == b[k]
  {
    var s := SortByEmissionsDesc(b);
    SortRanks(b);
    assert b[k] in multiset(s);
    var m :| 0 <= m < |s| && s[m] == b[k];
    assert s[0] in multiset(b);
    var j :| 0 <= j < |b| && b[j] == s[0];
    assert s[0].emissions >= s[m].emissions;
  }

  /** When the top-ranked item qualifies, its template is the first fallback. */
  lemma FallbackHead(b: seq<Entry>)
    requires SortByEmissionsDesc(b) != [] && Qualifies(SortByEmissionsDesc(b)[0])
    ensures FallbackEntries(b) != [] && FallbackEntries(b)[0] == SortByEmissionsDesc(b)[0]
    ensures FallbackFor(b) != []
    ensures FallbackFor(b)[0]
         == CategoryRecommendation(SortByEmissionsDesc(b)[0].category, SortByEmissionsDesc(b)[0].emissions).value
  {
    var s := SortByEmissionsDesc(b);
    var t := Take(s, 3);
    assert t == [s[0]] + t[1..];
    FilterCons(Qualifies, s[0], t[1..]);
  }

  /** When diet is strictly the largest category, its template with half the diet emissions leads. */
  lemma DietLargestFirst(b: seq<Entry>, k: nat)
    requires k < |b| && b[k] == Entry("diet", b[k].emissions) && b[k].emissions > 0.0
    requires forall j :: 0 <= j < |b| && j != k ==> b[j].emissions < b[k].emissions
    ensures FallbackFor(b) != []
    ensures FallbackFor(b)[0].title == "Adjust Your Diet"
    ensures FallbackFor(b)[0].description == DietDescription
    ensures FallbackFor(b)[0].potentialSavings == SavingsText(b[k].emissions * 0.5)
  {
    assert b[k].category == "diet";
    LargestCategoryFirst(b, k);
  }

  /** A breakdown where travel and transport tie at `x` and nothing else is positive. */
  function TiedBreakdown(x: real): seq<Entry> {
    [Entry("travel", x), Entry("transport", x), Entry("diet", 0.0),
     Entry("shopping", 0.0), Entry("home_energy", 0.0)]
  }

  lemma TiedBreakdownRanked(x: real)
    requires x > 0.0
    ensures SortByEmissionsDesc(TiedBreakdown(x)) == TiedBreakdown(x)
  {
    var b := TiedBreakdown(x);
    SortStep(b[4..]);
    assert b[4..][1..] == [];
    InsertAhead(b[4], []);
    SortStep(b[3..]);
    assert b[3..][1..] == b[4..];
    InsertAhead(b[3], [b[4]]);
    SortStep(b[2..]);
    assert b[2..][1..] == b[3..];
    InsertAhead(b[2], [b[3], b[4]]);
    SortStep(b[1..]);
    assert b[1..][1..] == b[2..];
    InsertAhead(b[1], b[2..]);
    SortStep(b);
    InsertAhead(b[0], b[1..]);
  }

  /** Ties keep dictionary order: equal travel and transport come out as travel, transport. */
  lemma TieKeepsDictionaryOrder(x: real)
    requires x > 0.0
    ensures Categories(FallbackEntries(TiedBreakdown(x))) == ["travel", "transport"]
  {
    var b := TiedBreakdown(x);
    TiedBreakdownRanked(x);
    var t := Take(b, 3);
    assert t == [b[0], b[1], b[2]];
    assert t[2..][1..] == [];
    assert Filter(Qualifies, t[2..]) == [];
    assert t[1..][1..] == t[2..];
    assert Qualifies(t[1]);
    assert Filter(Qualifies, t[1..]) == [t[1]];
    assert Filter(Qualifies, t) == [b[0], b[1]];
  }

  const ExampleRanked: seq<Entry> := [Entry("shopping", 33.0), Entry("home_energy", 3.5),
    Entry("travel", 2.1), Entry("transport", 1.31), Entry("diet", 1.1)]

  lemma ExampleRanking()
    ensures SortByEmissionsDesc(RoundEach(RawBreakdown(ExampleInput))) == ExampleRanked
  {
    ExampleBreakdown();
    var b := RoundEach(RawBreakdown(ExampleInput));
    var travel, transport, diet := Entry("travel", 2.1), Entry("transport", 1.31), Entry("diet", 1.1);
    var shopping, home := Entry("shopping", 33.0), Entry("home_energy", 3.5);
    assert b == [travel, transport, diet, shopping, home];
    SortStep(b[4..]);
    assert b[4..][1..] == [];
    InsertAhead(home, []);
    assert SortByEmissionsDesc(b[4..]) == [home];
    SortStep(b[3..]);
    assert b[3..][1..] == b[4..];
    InsertAhead(shopping, [home]);
    assert SortByEmissionsDesc(b[3..]) == [shopping, home];
    SortStep(b[2..]);
    assert b[2..][1..] == b[3..];
    InsertBehind(diet, [shopping, home]);
    assert [shopping, home][1..] == [home];
    InsertBehind(diet, [home]);
    assert [home][1..] == [];
    InsertAhead(diet, []);
    assert SortByEmissionsDesc(b[2..]) == [shopping, home, diet];
    SortStep(b[1..]);
    assert b[1..][1..] == b[2..];
    InsertBehind(transport, [shopping, home, diet]);
    assert [shopping, home, diet][1..] == [home, diet];
    InsertBehind(transport, [home, diet]);
    assert [home, diet][1..] == [diet];
    InsertAhead(transport, [diet]);
    assert SortByEmissionsDesc(b[1..]) == [shopping, home, transport, diet];
    SortStep(b);
    InsertBehind(travel, [shopping, home, transport, diet]);
    assert [shopping, home, transport, diet][1..] == [home, transport, diet];
    InsertBehind(travel, [home, transport, diet]);
    assert [home, transport, diet][1..] == [transport, diet];
    InsertAhead(travel, [transport, diet]);
  }

  /** The questionnaire example: shopping, home energy and travel, in that order. */
  lemma ExampleFallback()
    ensures Categories(FallbackEntries(RoundEach(RawBreakdown(ExampleInput))))
         == ["shopping", "home_energy", "travel"]
  {
    ExampleRanking();
    var t := Take(ExampleRanked, 3);
    assert t == [Entry("shopping", 33.0), Entry("home_energy", 3.5), Entry("travel", 2.1)];
    FilterAll(Qualifies, t);
  }
}
