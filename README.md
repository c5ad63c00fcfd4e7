# Carbon footprint engine — a Dafny model

This project models the decision logic of a personal carbon footprint
estimator:

- **Emission model** (`CarbonCalculator.calculate_emissions`): a
  ten-answer lifestyle questionnaire becomes yearly emissions in tonnes of
  CO₂ for five categories, `travel`, `transport`, `diet`, `shopping` and
  `home_energy`, plus a total. The factors come from fixed tables. An
  answer missing from its table falls back to a default and never raises.
- **Insight classifier** (`CarbonCalculator.get_category_insights`): each
  category gets its share of the total, rounded to a tenth of a percent,
  and a severity level from the first match of `> 40`, `> 25`, `> 15`,
  `> 5`, else.
- **Recommendation selection** (`AIAdvisor`):
  - the categories the prompt asks the advice provider to focus on;
  - the offline fallback, built from fixed per-category templates;
  - the rule that picks between the provider's reply and the fallback.

`carbon_calculator.py` and `carbon_calc.py` hold the same `CarbonCalculator`
class, line for line. One model, the `CarbonCalculator` module, serves
both files, and the table below cites either file.

Modules:

- `Wrappers` (`wrappers.dfy`): the `Option` type.
- `Decimal` (`decimal.dfy`): rounding to hundredths and tenths, and the
  one-decimal numeral text.
- `CarbonCalculator` (`carbon_calculator.dfy`):
  - the factor tables and the per-category formulas;
  - `CalculateEmissions`, which fills a five-key map step by step like the
    source's `emissions` dictionary;
  - `CategoryInsights`, the loop that fills the insights;
  - their properties.
- `Ranking` (`ranking.dfy`): Python's stable `sorted(..., reverse=True)`
  on emissions, as an insertion sort, plus the list slicing and
  comprehension filters.
- `AIAdvisor` (`ai_advisor.dfy`): templates, fallback, top categories and
  the outcome dispatch.

Python floats are modelled as exact reals, so `0.3` is three tenths.
Python's `round` and `:.1f` are modelled as round-half-up on exact
decimals. On a value at or next to a half-way point the program can round
the other way; "## Left out" names the members this affects.

A dictionary is modelled as a sequence of `(category, emissions)` entries
in insertion order, because the ranking's tie-break depends on that order.

Where the documented intent and the code disagree, the model follows the
code:

- A decoded provider reply without a `recommendations` key yields an
  empty list, not the fallback (`ai_advisor.py:60-63`).
- The fallback takes the three largest categories first and then drops
  non-positive ones. The prompt does it the other way round. The two agree
  (`AIAdvisor.FallbackMatchesPromptFocus`).

When `get_category_insights` is given a result's breakdown and its
`total_emissions` (nothing in the repository calls it), its percentages
need not add up to 100. Two roundings move them, as the first two points
say; the last two are worked examples:

- The total is rounded from the unrounded sum, while the breakdown is
  rounded item by item. So the unrounded shares (`carbon_calculator.py:142`)
  need not add up to 100 either. Their sum times the total is within 2 of
  100 times the total (`CarbonCalculator.ResultSharesNearHundred`). For a
  small footprint with a total of 0.26 they add up to under 96.2
  (`CarbonCalculator.SmallSharesMissHundred`).
- Each share is then recorded rounded to a tenth (`carbon_calculator.py:157`).
  That moves the recorded sum by up to 0.05 per category, 0.25 for all
  five (`CarbonCalculator.RecordedSharesNear`). The recorded sum times the
  total is within 2 + 0.25 × total of 100 times the total
  (`CarbonCalculator.RecordedSharesNearHundred`).
- The small footprint records shares that add up to exactly 96.2
  (`CarbonCalculator.SmallRecordedShares`).
- A large oil-heated house has a total of 21.84, and its breakdown adds up
  to that total. It records 0.5, 69.8 and 29.8 beside two zeros, which sum
  to 100.1. Times the total, that is 2.184 away from 100 times the total
  (`CarbonCalculator.OilHeatedRecordedShares`).

The shopping factors 0.025 and 0.015 are applied to the yearly spend as
written (`carbon_calculator.py:103-104`). The comments beside them suggest
a figure a hundred times smaller. The model keeps the code's numbers.

## Model

| member | source | states |
|---|---|---|
| `Decimal.Round2` | carbon_calculator.py:119-120 | `round(x, 2)` is within half a hundredth of `x`, is a whole number of hundredths, and is non-negative for non-negative `x` |
| `Decimal.Round1` | carbon_calculator.py:157 | `round(p, 1)` is within half a tenth of `p`, is a whole number of tenths, and is non-negative for non-negative `p` |
| `Decimal.NearestIntMonotone` | ai_advisor.py:157 | rounding never reverses the order of two amounts |
| `Decimal.FixedOneRoundTrip` | ai_advisor.py:157-177 | the `:.1f` text of a number of tenths reads back as that number, so formatting loses nothing beyond the rounding |
| `CarbonCalculator.Travel` | carbon_calculator.py:81-82 | short flights at 0.3 t and long flights at 1.5 t; non-negative counts give non-negative travel emissions |
| `CarbonCalculator.Transport` | carbon_calculator.py:85-90 | km per day × the mode's factor × 365 / 1000; 0 for a mode not in the table; non-negative for non-negative distance |
| `CarbonCalculator.Diet` | carbon_calculator.py:93-97 | the meat and dairy factors with default 0, always between 0 and 3.5 |
| `CarbonCalculator.Shopping` | carbon_calculator.py:100-104 | monthly spend × 12 × 0.025 plus online spend × 12 × 0.015; non-negative for non-negative spend |
| `CarbonCalculator.HomeEnergy` | carbon_calculator.py:107-113 | dwelling base × heating multiplier (defaults 2.5 and 1.0), always between 0.15 and 6.5 |
| `CarbonCalculator.RawBreakdown` | carbon_calculator.py:72-113 | the definition of the filled `emissions` dictionary, one entry per category formula; characterised by `RawBreakdownKeys` and `TotalOfRaw` |
| `CarbonCalculator.RawBreakdownKeys` | carbon_calculator.py:72-78 | the breakdown has exactly the keys travel, transport, diet, shopping, home_energy, in that order |
| `CarbonCalculator.RoundEach` | carbon_calculator.py:119 | rounding the breakdown keeps its keys in order, moves each value by at most half a hundredth and makes each value a whole number of hundredths |
| `CarbonCalculator.TotalOfRaw` | carbon_calc.py:116 | the unrounded total is the sum of the five category formulas |
| `CarbonCalculator.AccumulateEmissions` | carbon_calculator.py:72-113 | the in-place updates of the five-key emissions map leave each category equal to its formula |
| `CarbonCalculator.CalculateEmissions` | carbon_calculator.py:61-126 | the lifestyle data is returned unchanged, the breakdown has the five keys with each category rounded to hundredths, and the total is rounded from the unrounded sum |
| `CarbonCalculator.ExtraLongFlight` | carbon_calc.py:81-82 | one more long flight raises unrounded travel by exactly 1.5 and leaves the other categories unchanged |
| `CarbonCalculator.UnknownChoicesDefault` | carbon_calculator.py:88-111 | an unknown transport mode contributes 0, an unknown meat or dairy answer 0, an unknown home type base 2.5, an unknown heating type multiplier 1.0 |
| `CarbonCalculator.NonNegativeEmissions` | carbon_calc.py:8-120 | with non-negative counts, distance and spend, every category, rounded or not, and the rounded total are non-negative |
| `CarbonCalculator.HomeOnlyBaseline` | carbon_calculator.py:106-120 | with nothing to count and a "Never" diet the total is home energy alone; a flat with a heat pump gives 0.6 |
| `CarbonCalculator.RoundedSumNear` | carbon_calc.py:119 | rounding n terms to hundredths moves their sum by less than n half-hundredths |
| `CarbonCalculator.RoundedSumWhole` | carbon_calculator.py:119 | the sum of a rounded breakdown is a whole number of hundredths |
| `CarbonCalculator.TotalVersusRoundedBreakdown` | carbon_calculator.py:116-120 | for any five unrounded categories, the rounded total and the sum of the rounded categories differ by a whole number of hundredths, at most 0.02 either way |
| `CarbonCalculator.ExampleBreakdown` | carbon_calc.py:61-126 | the sample questionnaire gives 2.1, 1.31, 1.1, 33.0 and 3.5, and a total of 41.01 |
| `CarbonCalculator.Classify` | carbon_calculator.py:144-153 | the first-match level ladder equals the count of thresholds 5, 15, 25, 40 that the percentage strictly exceeds |
| `CarbonCalculator.ClassifyMonotone` | carbon_calc.py:144-153 | a larger percentage never gets a lower level |
| `CarbonCalculator.Percentage` | carbon_calculator.py:142 | 0 when the total is not positive, with no division; otherwise percentage × total = 100 × emissions |
| `CarbonCalculator.CategoryInsights` | carbon_calculator.py:128-161 | one insight per breakdown item, same category and emissions copied verbatim, the rounded percentage and the level of that item's own percentage; all 0 and "Very Low" when the total is not positive |
| `CarbonCalculator.PercentagesShareTotal` | carbon_calc.py:139-159 | the unrounded percentages are proportional to the breakdown and add up to 100 when the breakdown sums to the total |
| `CarbonCalculator.ResultSharesNearHundred` | carbon_calculator.py:116-142 | for any five unrounded categories, the unrounded percentages of the rounded breakdown, taken of the rounded total, add up to 100 only up to 2 / total percentage points |
| `CarbonCalculator.SmallBreakdown` | carbon_calculator.py:61-120 | a few metres by public transport, a little clothing and a small wood-heated house give rounded categories 0, 0, 0, 0 and 0.25, and a total of 0.26 |
| `CarbonCalculator.SmallSharesMissHundred` | carbon_calculator.py:61-142 | a footprint of public transport, a little clothing and a small wood-heated house has a rounded total of 0.26 and rounded categories summing to 0.25, so the unrounded percentages of its breakdown sum to under 96.2 |
| `CarbonCalculator.RecordedSharesNear` | carbon_calculator.py:141-157 | percentages recorded rounded to a tenth sum to within 0.05 per item of the unrounded percentages |
| `CarbonCalculator.RecordedSharesNearHundred` | carbon_calculator.py:116-157 | for any five unrounded categories, the recorded percentages of the rounded breakdown, taken of the rounded total and summed, times the total are within 2 + 0.25 × total of 100 times the total |
| `CarbonCalculator.SmallRecordedShares` | carbon_calculator.py:61-157 | the small wood-heated footprint records percentages that sum to exactly 96.2 |
| `CarbonCalculator.OilHeatedBreakdown` | carbon_calculator.py:61-120 | a large oil-heated house with a little dairy and 37 and 23 a month of clothing and online shopping gives 0, 0, 0.1, 15.24 and 6.5, and a total of 21.84 |
| `CarbonCalculator.OilHeatedRecordedShares` | carbon_calculator.py:61-157 | that house records percentages summing to 100.1, which times the total is more than 2 away from 100 times the total |
| `Ranking.SortByEmissionsDesc` | ai_advisor.py:140 | the definition of `sorted(breakdown.items(), key=..., reverse=True)` as an insertion sort; characterised by `SortRanks` and `SortIsStable` |
| `Ranking.SortRanks` | ai_advisor.py:140 | sorting by emissions descending returns the same items, as many, ranked largest first |
| `Ranking.SortIsStable` | ai_advisor.py:80 | items with equal emissions keep their dictionary order after the sort |
| `Ranking.TiesFilter` | ai_advisor.py:140-143 | filtering the items and picking out the items with one emission value can be done in either order |
| `Ranking.TiesTakePrefix` | ai_advisor.py:142 | among the first n items, those with a given emission value are a prefix of all items with that value |
| `Ranking.Take` | ai_advisor.py:148 | `s[:n]` is the first n items of `s`, or all of `s` when it has no more than n |
| `Ranking.Filter` | ai_advisor.py:81 | a comprehension filter keeps exactly the items of the input that satisfy its condition: every kept item is an input item satisfying it, every input item satisfying it is kept, never more items than the input |
| `Ranking.FilterSubsequence` | ai_advisor.py:81 | a comprehension filter keeps its items in their input order |
| `Ranking.FilterCounts` | ai_advisor.py:81 | a comprehension filter keeps every copy of an item that satisfies its condition and no copy of any other |
| `Ranking.FilterSortedDesc` | ai_advisor.py:142-143 | dropping items from a ranked list leaves it ranked |
| `Ranking.PositiveTakeCommute` | ai_advisor.py:80-81 | on a ranked list, filtering positive items then taking n equals taking n then filtering |
| `AIAdvisor.SavingsText` | ai_advisor.py:157-177 | the definition of the `f'{x:.1f} tonnes CO₂ per year'` text; characterised by `SavingsTextRoundTrip` |
| `AIAdvisor.SavingsTextRoundTrip` | ai_advisor.py:157 | the savings text reads back as the amount rounded to a tenth of a tonne, followed by " tonnes CO₂ per year" |
| `AIAdvisor.SavingsShare` | ai_advisor.py:157-177 | the amount a template writes into its savings text is 0 for a category without a template, and otherwise between a quarter and a half of the category's emissions |
| `AIAdvisor.TemplateFor` | ai_advisor.py:153-181 | the definition of `recommendations_map.get(category)` without its savings text: the five titles and descriptions; characterised by `TemplateForCategories` and `TemplateTextIsFixed` |
| `AIAdvisor.TemplateForCategories` | ai_advisor.py:153-181 | exactly the five breakdown categories have a template |
| `AIAdvisor.CategoryRecommendation` | ai_advisor.py:150-181 | `None` exactly for a category without a template; otherwise that template's title and description, and the savings text of the category's share of its emissions |
| `AIAdvisor.CategorySavingsReadBack` | ai_advisor.py:157-177 | a recommendation's savings text reads back as the category's share of its emissions, rounded to tenths |
| `AIAdvisor.SavingsShareMonotone` | ai_advisor.py:157-177 | a larger amount of emissions never gives a smaller share |
| `AIAdvisor.TemplateTextIsFixed` | ai_advisor.py:154-176 | a category's title and description do not depend on its emissions |
| `AIAdvisor.SavingsMonotone` | ai_advisor.py:157-177 | for a category with a template, larger emissions never give a smaller savings figure in the text |
| `AIAdvisor.TopCategories` | ai_advisor.py:80-81 | the prompt names at most three categories |
| `AIAdvisor.PromptTopCategories` | ai_advisor.py:72-93 | the definition of the prompt's top categories, `None` where building the prompt raises `KeyError` for a missing key; characterised by `GetRecommendations` and `FallbackMatchesPromptFocus` |
| `AIAdvisor.FallbackEntries` | ai_advisor.py:140-146 | the fallback uses at most three breakdown items |
| `AIAdvisor.RecommendationsFor` | ai_advisor.py:142-146 | one recommendation per chosen item, each the `_get_category_recommendation` of that item |
| `AIAdvisor.FallbackFor` | ai_advisor.py:148 | the fallback gives at most three recommendations |
| `AIAdvisor.FallbackRecommendations` | ai_advisor.py:130-148 | the loop's list is the template of each qualifying item among the three largest, in rank order, capped at three; it depends on the breakdown alone |
| `AIAdvisor.GetRecommendations` | ai_advisor.py:21-70 | failed call, malformed JSON or a prompt that cannot be built → fallback; decoded reply with the key → that list verbatim, uncapped; without the key → empty list |
| `AIAdvisor.FallbackEntriesFacts` | ai_advisor.py:140-146 | every fallback item is a breakdown item with positive emissions and one of the five categories, the items come largest first, and every positive item with a template among the three largest is used |
| `AIAdvisor.FallbackTieOrder` | ai_advisor.py:140-146 | fallback items with equal emissions come in breakdown order: they are the qualifying ones among a prefix of the breakdown's items with that value |
| `AIAdvisor.NothingPositiveNoFallback` | ai_advisor.py:143 | a breakdown with no positive category gets no fallback recommendation |
| `AIAdvisor.FallbackMatchesPromptFocus` | ai_advisor.py:80-81 | the fallback's categories are exactly the prompt's top categories, in the same order |
| `AIAdvisor.LargestCategoryFirst` | ai_advisor.py:140-146 | the category with strictly the largest positive emissions gives the first fallback recommendation |
| `AIAdvisor.StrictMaximumRanksFirst` | ai_advisor.py:140 | the item with strictly the largest emissions is first after the sort |
| `AIAdvisor.FallbackHead` | ai_advisor.py:140-146 | when the top-ranked item is positive and has a template, its recommendation is the first fallback |
| `AIAdvisor.DietLargestFirst` | ai_advisor.py:164-168 | when diet is strictly the largest, the first fallback is the diet template, with savings of half the diet emissions rounded to tenths |
| `AIAdvisor.TieKeepsDictionaryOrder` | ai_advisor.py:140-142 | when travel and transport tie, they are recommended in dictionary order, travel first |
| `AIAdvisor.ExampleFallback` | ai_advisor.py:130-148 | for the sample questionnaire the fallback covers shopping, home energy and travel, in that order |

## Left out

- The OpenAI client, its API-key check and the network call
  (`ai_advisor.py:10-19`, `36-53`) are not modelled. What the call and the
  decoding came to is a `ProviderReply` parameter. The `ValueError` that
  `__init__` raises without an API key is also left out; it is raised
  before any recommendation is asked for.
- The prose of the prompt (`ai_advisor.py:83-126`) is not modelled. Only
  its top categories, and the `KeyError` raised when the breakdown lacks
  one of the five keys it prints, are modelled.
- The decoded reply is taken to be a JSON object. Its `recommendations`
  value is taken to be a list of recommendations. The code returns
  whatever that value is, without checking it.
- The `print` of the caught exception is not modelled.
- `Decimal.Round2`, `Decimal.Round1`, `AIAdvisor.SavingsTextRoundTrip`, `AIAdvisor.CategoryRecommendation`, `AIAdvisor.DietLargestFirst`:
  Python rounds the binary float nearest to the value, half-to-even. The
  model rounds the exact decimal half-up. They differ when the value is at
  or next to a half-way point, and the savings texts meet such values:
  diet emissions of 2.5 give savings of 1.25, which the model writes as
  "1.3" and Python as "1.2"; home energy of 0.6 gives 0.15, which the
  model writes as "0.2" and Python, whose 0.6 × 0.25 lies just below 0.15,
  as "0.1". The rounded breakdown and total can differ in the same way.
- The Streamlit pages, charts, CSV export, session id and database layer
  are outside the engine and are not modelled.
- The UI rule that sets the daily distance to 0 for non-vehicle modes is
  not part of the engine and is not modelled.
