/**
  The emission model and the insight classifier of the carbon footprint
  estimator (class `CarbonCalculator`).

  A lifestyle questionnaire becomes a five-category breakdown of yearly
  emissions in tonnes of CO2 and a total; the classifier then gives each
  category its share of the total and a severity level.  Python's floats
  are modelled as exact reals, so every decimal constant below is the
  rational it is written as.
 */
module CarbonCalculator {
  import opened Decimal

  /** The questionnaire answers, one field per key of `lifestyle_data`. */
  datatype LifestyleInput = LifestyleInput(
    flightsShort: int,
    flightsLong: int,
    transportType: string,
    dailyDistance: real,
    meatFrequency: string,
    dairyFrequency: string,
    clothingSpend: real,
    onlineShopping: real,
    homeType: string,
    heatingType: string)

  /** One `(category, emissions)` item of a breakdown dictionary. */
  datatype Entry = Entry(category: string, emissions: real)

  /** The dictionary `calculate_emissions` returns. */
  datatype EmissionResult = EmissionResult(
    totalEmissions: real,
    breakdown: seq<Entry>,
    lifestyleData: LifestyleInput)

  // ---------------------------------------------------------------------
  // Emission factor tables (tonnes CO2 per unit unless noted)
  // ---------------------------------------------------------------------

  const FlightShortFactor: real := 0.3
  const FlightLongFactor: real := 1.5

  /** kg CO2 per km travelled. */
  const TransportFactors: map<string, real> := map[
    "Walking/Cycling" := 0.0,
    "Public Transport" := 0.04,
    "Car (Petrol)" := 0.18,
    "Car (Diesel)" := 0.16,
    "Car (Electric)" := 0.05,
    "Motorcycle" := 0.12]

  const MeatFactors: map<string, real> := map[
    "Never" := 0.0,
    "1-2 times per month" := 0.3,
    "1-2 times per week" := 0.8,
    "3-4 times per week" := 1.5,
    "Daily" := 2.5]

  const DairyFactors: map<string, real> := map[
    "Never" := 0.0,
    "Rarely" := 0.1,
    "Sometimes" := 0.3,
    "Regularly" := 0.6,
    "Daily" := 1.0]

  const ClothingFactor: real := 0.025
  const ShoppingFactor: real := 0.015

  const HomeBase: map<string, real> := map[
    "Apartment/Flat" := 1.5,
    "Small House" := 2.5,
    "Medium House" := 3.5,
    "Large House" := 5.0]

  const HeatingMultiplier: map<string, real> := map[
    "Gas Boiler" := 1.0,
    "Electric Heating" := 1.2,
    "Heat Pump" := 0.4,
    "Oil Heating" := 1.3,
    "Wood/Biomass" := 0.1]

  /** Used by `.get` when the home type or heating type is not in its table. */
  const DefaultHomeBase: real := 2.5
  const DefaultHeatingMultiplier: real := 1.0

  /** The keys of the breakdown, in the order the dictionary is built. */
  const CategoryKeys: seq<string> := ["travel", "transport", "diet", "shopping", "home_energy"]

  /** Python's `table.get(key, default)`. */
  function Lookup(table: map<string, real>, key: string, default: real): real {
    if key in table then table[key] else default
  }

  /** The factor of each questionnaire answer, with the default `.get` falls back to. */
  function MeatFactor(frequency: string): real { Lookup(MeatFactors, frequency, 0.0) }
  function DairyFactor(frequency: string): real { Lookup(DairyFactors, frequency, 0.0) }
  function HomeBaseFor(homeType: string): real { Lookup(HomeBase, homeType, DefaultHomeBase) }
  function HeatingMultiplierFor(heatingType: string): real {
    Lookup(HeatingMultiplier, heatingType, DefaultHeatingMultiplier)
  }

  function Categories(b: seq<Entry>): (names: seq<string>)
    ensures |names| == |b|
  {
    seq(|b|, i requires 0 <= i < |b| => b[i].category)
  }

  /** `sum(d.values())` */
  function Total(b: seq<Entry>): real {
    if b == [] then 0.0 else b[0].emissions + Total(b[1..])
  }

  // ---------------------------------------------------------------------
  // The per-category formulas, unrounded
  // ---------------------------------------------------------------------

  /** Short-haul flights at 0.3 tonnes each, long-haul at 1.5. */
  function Travel(flightsShort: int, flightsLong: int): (t: real)
    ensures flightsShort >= 0 && flightsLong >= 0 ==> t >= 0.0
  {
    flightsShort as real * FlightShortFactor + flightsLong as real * FlightLongFactor
  }

  /** Daily kilometres times the mode's kg/km factor, over a year, in tonnes; 0 for an unknown mode. */
  function Transport(transportType: string, dailyDistance: real): (t: real)
    ensures dailyDistance >= 0.0 ==> t >= 0.0
    ensures transportType !in TransportFactors ==> t == 0.0
  {
    if transportType in TransportFactors
    then dailyDistance * TransportFactors[transportType] * 365.0 / 1000.0
    else 0.0
  }

  function Diet(meatFrequency: string, dairyFrequency: string): (t: real)
    ensures 0.0 <= t <= 3.5
  {
    MeatFactor(meatFrequency) + DairyFactor(dairyFrequency)
  }

  /** Monthly spending over a year, at 0.025 and 0.015 tonnes per unit. */
  function Shopping(clothingSpend: real, onlineShopping: real): (t: real)
    ensures clothingSpend >= 0.0 && onlineShopping >= 0.0 ==> t >= 0.0
  {
    clothingSpend * 12.0 * ClothingFactor + onlineShopping * 12.0 * ShoppingFactor
  }

  /** Base emissions of the dwelling times the heating source's multiplier. */
  function HomeEnergy(homeType: string, heatingType: string): (t: real)
    ensures 0.15 <= t <= 6.5
  {
    HomeBaseFor(homeType) * HeatingMultiplierFor(heatingType)
  }

  lemma HomeEnergyOfLookups(homeType: string, heatingType: string, base: real, multiplier: real)
    requires base == HomeBaseFor(homeType) && multiplier == HeatingMultiplierFor(heatingType)
    ensures base * multiplier == HomeEnergy(homeType, heatingType)
  {
  }

  /** The `emissions` dictionary once every category has been filled in. */
  function RawBreakdown(d: LifestyleInput): seq<Entry> {
    [Entry("travel", Travel(d.flightsShort, d.flightsLong)),
     Entry("transport", Transport(d.transportType, d.dailyDistance)),
     Entry("diet", Diet(d.meatFrequency, d.dairyFrequency)),
     Entry("shopping", Shopping(d.clothingSpend, d.onlineShopping)),
     Entry("home_energy", HomeEnergy(d.homeType, d.heatingType))]
  }

  /** The breakdown has the five categories, in the order the dictionary is built. */
  lemma RawBreakdownKeys(d: LifestyleInput)
    ensures Categories(RawBreakdown(d)) == CategoryKeys
  {
  }

  /** `{k: round(v, 2) for k, v in emissions.items()}` */
  function RoundEach(b: seq<Entry>): (r: seq<Entry>)
    ensures Categories(r) == Categories(b)
    ensures forall i :: 0 <= i < |r| ==> b[i].emissions - 0.005 < r[i].emissions <= b[i].emissions + 0.005
    ensures forall i :: 0 <= i < |r| ==> WholeHundredths(r[i].emissions)
  {
    seq(|b|, i requires 0 <= i < |b| => Entry(b[i].category, Round2(b[i].emissions)))
  }

  /** The total of the five categories, term by term. */
  lemma TotalOfRaw(d: LifestyleInput)
    ensures Total(RawBreakdown(d)) ==
      Travel(d.flightsShort, d.flightsLong) + Transport(d.transportType, d.dailyDistance)
      + Diet(d.meatFrequency, d.dairyFrequency) + Shopping(d.clothingSpend, d.onlineShopping)
      + HomeEnergy(d.homeType, d.heatingType)
  {
    var b := RawBreakdown(d);
    assert Total(b) == b[0].emissions + Total(b[1..]);
    assert Total(b[1..]) == b[1].emissions + Total(b[2..]);
    assert Total(b[2..]) == b[2].emissions + Total(b[3..]);
    assert Total(b[3..]) == b[3].emissions + Total(b[4..]);
    assert Total(b[4..]) == b[4].emissions + Total(b[5..]);
    assert b[5..] == [];
  }

  /** Numeric answers that can be counts, distances and amounts of money. */
  predicate NonNegativeQuantities(d: LifestyleInput) {
    d.flightsShort >= 0 && d.flightsLong >= 0 && d.dailyDistance >= 0.0
    && d.clothingSpend >= 0.0 && d.onlineShopping >= 0.0
  }

  // ---------------------------------------------------------------------
  // calculate_emissions
  // ---------------------------------------------------------------------

  /**
    The first half of `calculate_emissions`: fills a five-key dictionary
    category by category and yields its items in insertion order.
   */
  method AccumulateEmissions(data: LifestyleInput) returns (items: seq<Entry>)
    ensures items == RawBreakdown(data)
  {
    var emissions: map<string, real> := map[
      "travel" := 0.0, "transport" := 0.0, "diet" := 0.0, "shopping" := 0.0, "home_energy" := 0.0];

    emissions := emissions["travel" := emissions["travel"] + data.flightsShort as real * FlightShortFactor];
    emissions := emissions["travel" := emissions["travel"] + data.flightsLong as real * FlightLongFactor];
    assert emissions["travel"] == Travel(data.flightsShort, data.flightsLong);

    if data.transportType in TransportFactors {
      var dailyEmissions := data.dailyDistance * TransportFactors[data.transportType];
      emissions := emissions["transport" := dailyEmissions * 365.0 / 1000.0];
    }
    assert emissions["transport"] == Transport(data.transportType, data.dailyDistance);

    emissions := emissions["diet" := emissions["diet"] + MeatFactor(data.meatFrequency)];
    emissions := emissions["diet" := emissions["diet"] + DairyFactor(data.dairyFrequency)];
    assert emissions["diet"] == Diet(data.meatFrequency, data.dairyFrequency);

    var clothingAnnual := data.clothingSpend * 12.0;
    var shoppingAnnual := data.onlineShopping * 12.0;
    emissions := emissions["shopping" := emissions["shopping"] + clothingAnnual * ClothingFactor];
    emissions := emissions["shopping" := emissions["shopping"] + shoppingAnnual * ShoppingFactor];
    assert emissions["shopping"] == Shopping(data.clothingSpend, data.onlineShopping);

    var baseEmissions := HomeBaseFor(data.homeType);
    var heatingMultiplier := HeatingMultiplierFor(data.heatingType);
    HomeEnergyOfLookups(data.homeType, data.heatingType, baseEmissions, heatingMultiplier);
    emissions := emissions["home_energy" := baseEmissions * heatingMultiplier];
    assert emissions["home_energy"] == HomeEnergy(data.homeType, data.heatingType);

    // the dictionary's items, in insertion order
    items := [
      Entry("travel", emissions["travel"]),
      Entry("transport", emissions["transport"]),
      Entry("diet", emissions["diet"]),
      Entry("shopping", emissions["shopping"]),
      Entry("home_energy", emissions["home_energy"])];
  }

  /**
    `calculate_emissions`: the unrounded categories, each rounded to
    hundredths for the breakdown, and the total rounded from their
    unrounded sum.
   */
  method CalculateEmissions(data: LifestyleInput) returns (result: EmissionResult)
    ensures result.lifestyleData == data
    ensures Categories(result.breakdown) == CategoryKeys
    ensures result.breakdown == RoundEach(RawBreakdown(data))
    ensures result.totalEmissions == Round2(Total(RawBreakdown(data)))
  {
    var emissions := AccumulateEmissions(data);
    RawBreakdownKeys(data);
    var totalEmissions := Total(emissions);
    var breakdown := RoundEach(emissions);
    result := EmissionResult(Round2(totalEmissions), breakdown, data);
  }

  // ---------------------------------------------------------------------
  // Properties of the emission model
  // ---------------------------------------------------------------------

  /** One more long flight adds exactly 1.5 tonnes to travel and changes no other category. */
  lemma ExtraLongFlight(d: LifestyleInput)
    ensures var more := d.(flightsLong := d.flightsLong + 1);
      RawBreakdown(more) == RawBreakdown(d)[0 := Entry("travel", Travel(d.flightsShort, d.flightsLong) + 1.5)]
  {
  }

  /** Answers outside the tables never fail: each falls back to its documented default. */
  lemma UnknownChoicesDefault(transportType: string, dailyDistance: real, meatFrequency: string,
                              dairyFrequency: string, homeType: string, heatingType: string)
    ensures transportType !in TransportFactors ==> Transport(transportType, dailyDistance) == 0.0
    ensures meatFrequency !in MeatFactors ==> Diet(meatFrequency, dairyFrequency) == DairyFactor(dairyFrequency)
    ensures dairyFrequency !in DairyFactors ==> Diet(meatFrequency, dairyFrequency) == MeatFactor(meatFrequency)
    ensures homeType !in HomeBase ==> HomeEnergy(homeType, heatingType) == 2.5 * HeatingMultiplierFor(heatingType)
    ensures heatingType !in HeatingMultiplier ==> HomeEnergy(homeType, heatingType) == HomeBaseFor(homeType)
  {
  }

  /** Every table factor is non-negative, so non-negative answers give non-negative emissions. */
  lemma NonNegativeEmissions(d: LifestyleInput)
    requires NonNegativeQuantities(d)
    ensures forall e :: e in RawBreakdown(d) ==> e.emissions >= 0.0
    ensures forall e :: e in RoundEach(RawBreakdown(d)) ==> e.emissions >= 0.0
    ensures Round2(Total(RawBreakdown(d))) >= 0.0
  {
    var b := RawBreakdown(d);
    var r := RoundEach(b);
    TotalOfRaw(d);
    forall e | e in r ensures e.emissions >= 0.0 {
      var i :| 0 <= i < |r| && r[i] == e;
      assert r[i].emissions == Round2(b[i].emissions);
    }
  }

  /** With nothing to count and a meat- and dairy-free diet, the total is the home's alone. */
  lemma HomeOnlyBaseline(d: LifestyleInput)
    requires d.flightsShort == 0 && d.flightsLong == 0 && d.dailyDistance == 0.0
    requires d.clothingSpend == 0.0 && d.onlineShopping == 0.0
    requires d.meatFrequency == "Never" && d.dairyFrequency == "Never"
    ensures Total(RawBreakdown(d)) == HomeEnergy(d.homeType, d.heatingType)
    ensures d.homeType == "Apartment/Flat" && d.heatingType == "Heat Pump" ==>
      Round2(Total(RawBreakdown(d))) == 0.6
  {
    TotalOfRaw(d);
    if d.homeType == "Apartment/Flat" && d.heatingType == "Heat Pump" {
      assert HomeEnergy(d.homeType, d.heatingType) == 0.6;
      assert NearestInt(0.6 * 100.0) == 60;
    }
  }

  /** Rounding each term to hundredths moves a sum of `n` terms by less than `n` half-hundredths. */
  lemma {:induction false} RoundedSumNear(b: seq<Entry>)
    requires |b| > 0
    ensures Total(b) - 0.005 * |b| as real < Total(RoundEach(b)) <= Total(b) + 0.005 * |b| as real
    decreases |b|
  {
    var r := RoundEach(b);
    assert r[0].emissions == Round2(b[0].emissions);
    if |b| > 1 {
      assert r[1..] == RoundEach(b[1..]);
      RoundedSumNear(b[1..]);
    } else {
      assert r[1..] == [] && b[1..] == [];
    }
  }

  /** The sum of a breakdown rounded to hundredths is a whole number of hundredths. */
  lemma {:induction false} RoundedSumWhole(b: seq<Entry>)
    ensures WholeHundredths(Total(RoundEach(b)))
    decreases |b|
  {
    var r := RoundEach(b);
    if b != [] {
      assert r[1..] == RoundEach(b[1..]);
      RoundedSumWhole(b[1..]);
      WholeHundredthsSum(r[0].emissions, Total(r[1..]));
    }
  }

  /**
    The total is rounded from the five unrounded categories (`RawBreakdown`),
    so it can differ from the sum of the displayed (rounded) categories --
    by a whole number of hundredths, and never by more than two of them.
   */
  lemma {:induction false} TotalVersusRoundedBreakdown(raw: seq<Entry>)
    requires |raw| == 5
    ensures var diff := Round2(Total(raw)) - Total(RoundEach(raw));
      -0.02 <= diff <= 0.02 && WholeHundredths(diff)
  {
    RoundedSumNear(raw);
    RoundedSumWhole(raw);
    var total := Round2(Total(raw));
    var shown := Total(RoundEach(raw));
    var k := (total * 100.0).Floor - (shown * 100.0).Floor;
    assert (total - shown) * 100.0 == k as real;
    assert -3 < k < 3;
  }

  /** The questionnaire example: two short flights, one long, 20 km by petrol car, ... */
  const ExampleInput: LifestyleInput := LifestyleInput(
    2, 1, "Car (Petrol)", 20.0, "1-2 times per week", "Sometimes", 50.0, 100.0, "Medium House", "Gas Boiler")

  lemma ExampleBreakdown()
    ensures RoundEach(RawBreakdown(ExampleInput)) ==
      [Entry("travel", 2.1), Entry("transport", 1.31), Entry("diet", 1.1),
       Entry("shopping", 33.0), Entry("home_energy", 3.5)]
    ensures Round2(Total(RawBreakdown(ExampleInput))) == 41.01
  {
    var b := RawBreakdown(ExampleInput);
    assert b == [Entry("travel", 2.1), Entry("transport", 1.314), Entry("diet", 1.1),
                 Entry("shopping", 33.0), Entry("home_energy", 3.5)];
    assert NearestInt(2.1 * 100.0) == 210;
    assert NearestInt(1.314 * 100.0) == 131;
    assert NearestInt(1.1 * 100.0) == 110;
    assert NearestInt(33.0 * 100.0) == 3300;
    assert NearestInt(3.5 * 100.0) == 350;
    TotalOfRaw(ExampleInput);
    assert Total(b) == 41.014;
    assert NearestInt(41.014 * 100.0) == 4101;
  }

  // ---------------------------------------------------------------------
  // get_category_insights
  // ---------------------------------------------------------------------

  datatype Level = VeryLow | Low | Medium | High | VeryHigh {
    /** The label shown to the user. */
    function Label(): string {
      match this
      case VeryLow => "Very Low"
      case Low => "Low"
      case Medium => "Medium"
      case High => "High"
      case VeryHigh => "Very High"
    }

    /** Position on the severity scale, from 0 (Very Low) to 4 (Very High). */
    function Rank(): nat {
      match this
      case VeryLow => 0
      case Low => 1
      case Medium => 2
      case High => 3
      case VeryHigh => 4
    }
  }

  /** The percentages above which a category moves one level up. */
  const LevelThresholds: seq<real> := [5.0, 15.0, 25.0, 40.0]

  /** How many of the thresholds `p` strictly exceeds. */
  function CountExceeded(p: real, thresholds: seq<real>): (n: nat)
    ensures n <= |thresholds|
  {
    if thresholds == [] then 0
    else (if p > thresholds[0] then 1 else 0) + CountExceeded(p, thresholds[1..])
  }

  /**
    First match of `> 40`, `> 25`, `> 15`, `> 5`, else: the level whose rank
    is the number of thresholds the percentage exceeds.
   */
  function Classify(percentage: real): (level: Level)
    ensures level.Rank() == CountExceeded(percentage, LevelThresholds)
  {
    CountExceededLadder(percentage);
    if percentage > 40.0 then VeryHigh
    else if percentage > 25.0 then High
    else if percentage > 15.0 then Medium
    else if percentage > 5.0 then Low
    else VeryLow
  }

  lemma CountExceededLadder(p: real)
    ensures CountExceeded(p, LevelThresholds) ==
      (if p > 5.0 then 1 else 0) + (if p > 15.0 then 1 else 0)
      + (if p > 25.0 then 1 else 0) + (if p > 40.0 then 1 else 0)
  {
    var t := LevelThresholds;
    assert CountExceeded(p, t) == (if p > 5.0 then 1 else 0) + CountExceeded(p, t[1..]);
    assert CountExceeded(p, t[1..]) == (if p > 15.0 then 1 else 0) + CountExceeded(p, t[2..]);
    assert CountExceeded(p, t[2..]) == (if p > 25.0 then 1 else 0) + CountExceeded(p, t[3..]);
    assert CountExceeded(p, t[3..]) == (if p > 40.0 then 1 else 0) + CountExceeded(p, t[4..]);
    assert t[4..] == [];
  }

  lemma {:induction false} CountExceededMonotone(p: real, q: real, thresholds: seq<real>)
    requires p <= q
    ensures CountExceeded(p, thresholds) <= CountExceeded(q, thresholds)
    decreases |thresholds|
  {
    if thresholds != [] {
      CountExceededMonotone(p, q, thresholds[1..]);
    }
  }

  /** A larger share of the total never gets a lower level. */
  lemma ClassifyMonotone(p: real, q: real)
    requires p <= q
    ensures Classify(p).Rank() <= Classify(q).Rank()
  {
    CountExceededMonotone(p, q, LevelThresholds);
  }

  /** `(emissions / total) * 100`, or 0 when the total is not positive. */
  function Percentage(emissions: real, total: real): (p: real)
    ensures total <= 0.0 ==> p == 0.0
    ensures total > 0.0 ==> p * total == emissions * 100.0
  {
    if total > 0.0 then (emissions / total) * 100.0 else 0.0
  }

  datatype Insight = Insight(category: string, emissions: real, percentage: real, level: Level)

  /** The insight recorded for one breakdown item. */
  function InsightFor(e: Entry, total: real): Insight {
    var p := Percentage(e.emissions, total);
    Insight(e.category, e.emissions, Round1(p), Classify(p))
  }

  /** Walks the breakdown in order, recording each category's share and level. */
  method CategoryInsights(breakdown: seq<Entry>, totalEmissions: real) returns (insights: seq<Insight>)
    ensures |insights| == |breakdown|
    ensures forall i :: 0 <= i < |breakdown| ==>
      insights[i].category == breakdown[i].category && insights[i].emissions == breakdown[i].emissions
    ensures forall i :: 0 <= i < |breakdown| ==>
      insights[i].level == Classify(Percentage(breakdown[i].emissions, totalEmissions))
      && insights[i].percentage == Round1(Percentage(breakdown[i].emissions, totalEmissions))
    ensures totalEmissions <= 0.0 ==>
      forall i :: 0 <= i < |insights| ==> insights[i].percentage == 0.0 && insights[i].level == VeryLow
  {
    insights := [];
    var i := 0;
    while i < |breakdown|
      invariant 0 <= i <= |breakdown|
      invariant |insights| == i
      invariant forall k :: 0 <= k < i ==> insights[k] == InsightFor(breakdown[k], totalEmissions)
    {
      var category, emissions := breakdown[i].category, breakdown[i].emissions;
      var percentage := if totalEmissions > 0.0 then (emissions / totalEmissions) * 100.0 else 0.0;
      var level := Classify(percentage);
      insights := insights + [Insight(category, emissions, Round1(percentage), level)];
      i := i + 1;
    }
    assert totalEmissions <= 0.0 ==> NearestInt(0.0 * 10.0) == 0;
  }

  /** The sum of the unrounded percentages, item by item. */
  function PercentageSum(b: seq<Entry>, total: real): real {
    if b == [] then 0.0 else Percentage(b[0].emissions, total) + PercentageSum(b[1..], total)
  }

  lemma CancelPositive(x: real, y: real, t: real)
    requires t > 0.0 && x * t == y * t
    ensures x == y
  {
  }

  /** The shares are proportional to the breakdown: they add up to 100 when it sums to the total. */
  lemma {:induction false} PercentagesShareTotal(b: seq<Entry>, total: real)
    requires total > 0.0
    ensures PercentageSum(b, total) * total == Total(b) * 100.0
    ensures Total(b) == total ==> PercentageSum(b, total) == 100.0
    decreases |b|
  {
    if b != [] {
      PercentagesShareTotal(b[1..], total);
      var p := Percentage(b[0].emissions, total);
      assert PercentageSum(b, total) * total == p * total + PercentageSum(b[1..], total) * total;
    }
    if Total(b) == total {
      CancelPositive(PercentageSum(b, total), 100.0, total);
    }
  }

  /**
    Given a result's rounded breakdown and its `total_emissions`, both
    rounded from the five unrounded categories `raw`, `CategoryInsights`
    takes every share of the rounded total, not of the sum of the rounded
    categories, so the unrounded shares need not add up to 100: times the
    total, their sum is within two of 100 times the total.
   */
  lemma {:induction false} ResultSharesNearHundred(raw: seq<Entry>)
    requires |raw| == 5
    requires Round2(Total(raw)) > 0.0
    ensures var total := Round2(Total(raw));
      -2.0 <= (PercentageSum(RoundEach(raw), total) - 100.0) * total <= 2.0
  {
    var total := Round2(Total(raw));
    var b := RoundEach(raw);
    PercentagesShareTotal(b, total);
    TotalVersusRoundedBreakdown(raw);
    ScaledShareGap(PercentageSum(b, total), Total(b), total);
  }

  /** Shares proportional to a sum that is within 0.02 of the total miss 100, times the total, by at most 2. */
  lemma ScaledShareGap(shares: real, sum: real, total: real)
    requires total > 0.0 && shares * total == sum * 100.0
    requires -0.02 <= total - sum <= 0.02
    ensures -2.0 <= (shares - 100.0) * total <= 2.0
  {
    assert (shares - 100.0) * total == (sum - total) * 100.0;
  }

  lemma ProductNonNegative(x: real, y: real)
    requires x >= 0.0 && y >= 0.0
    ensures x * y >= 0.0
  {
  }

  /** Moving the shares by at most a quarter adds at most a quarter of the total to their scaled gap. */
  lemma ScaledShareSlack(shares: real, recorded: real, total: real)
    requires total > 0.0 && -2.0 <= (shares - 100.0) * total <= 2.0
    requires -0.25 <= recorded - shares <= 0.25
    ensures -2.0 - 0.25 * total <= (recorded - 100.0) * total <= 2.0 + 0.25 * total
  {
    var gap, moved := (shares - 100.0) * total, (recorded - shares) * total;
    assert (recorded - 100.0) * total == gap + moved;
    ProductNonNegative(0.25 - (recorded - shares), total);
    ProductNonNegative(0.25 + (recorded - shares), total);
    assert -0.25 * total <= moved <= 0.25 * total;
  }

  /** The sum of the (rounded) percentages recorded in a list of insights. */
  function RecordedPercentageSum(insights: seq<Insight>): real {
    if insights == [] then 0.0 else insights[0].percentage + RecordedPercentageSum(insights[1..])
  }

  /**
    Insights that record each item's percentage rounded to a tenth, as
    `CategoryInsights` does, sum to within a twentieth per item of the
    unrounded shares.
   */
  lemma {:induction false} RecordedSharesNear(b: seq<Entry>, total: real, insights: seq<Insight>)
    requires |insights| == |b|
    requires forall i :: 0 <= i < |b| ==> insights[i].percentage == Round1(Percentage(b[i].emissions, total))
    ensures var slack := 0.05 * |b| as real;
      PercentageSum(b, total) - slack <= RecordedPercentageSum(insights) <= PercentageSum(b, total) + slack
    decreases |b|
  {
    if b != [] {
      RecordedSharesNear(b[1..], total, insights[1..]);
    }
  }

  /**
    The percentages `CategoryInsights` records for a result rounded from
    the five unrounded categories `raw`: their sum misses 100, times the
    total, by at most 2 plus a quarter of the total.
   */
  lemma {:induction false} RecordedSharesNearHundred(raw: seq<Entry>, insights: seq<Insight>)
    requires |raw| == 5
    requires Round2(Total(raw)) > 0.0
    requires |insights| == 5
    requires forall i :: 0 <= i < 5 ==>
      insights[i].percentage == Round1(Percentage(RoundEach(raw)[i].emissions, Round2(Total(raw))))
    ensures var total := Round2(Total(raw));
      -2.0 - 0.25 * total <= (RecordedPercentageSum(insights) - 100.0) * total <= 2.0 + 0.25 * total
  {
    var total := Round2(Total(raw));
    var b := RoundEach(raw);
    ResultSharesNearHundred(raw);
    RecordedSharesNear(b, total, insights);
    ScaledShareSlack(PercentageSum(b, total), RecordedPercentageSum(insights), total);
  }

  /** A small footprint: a few metres by public transport, a little clothing, a small house heated with wood. */
  const SmallInput: LifestyleInput := LifestyleInput(
    0, 0, "Public Transport", 0.33, "Never", "Never", 0.016, 0.0, "Small House", "Wood/Biomass")

  lemma SmallBreakdown()
    ensures RoundEach(RawBreakdown(SmallInput)) ==
      [Entry("travel", 0.0), Entry("transport", 0.0), Entry("diet", 0.0),
       Entry("shopping", 0.0), Entry("home_energy", 0.25)]
    ensures Round2(Total(RawBreakdown(SmallInput))) == 0.26
  {
    var b := RawBreakdown(SmallInput);
    assert b == [Entry("travel", 0.0), Entry("transport", 0.004818), Entry("diet", 0.0),
                 Entry("shopping", 0.0048), Entry("home_energy", 0.25)];
    assert NearestInt(0.0 * 100.0) == 0;
    assert NearestInt(0.004818 * 100.0) == 0;
    assert NearestInt(0.0048 * 100.0) == 0;
    assert NearestInt(0.25 * 100.0) == 25;
    TotalOfRaw(SmallInput);
    assert Total(b) == 0.259618;
    assert NearestInt(0.259618 * 100.0) == 26;
  }

  /** For the small footprint the unrounded shares of its result's breakdown add up to less than 96.2 percent. */
  lemma SmallSharesMissHundred()
    ensures Round2(Total(RawBreakdown(SmallInput))) == 0.26
    ensures Total(RoundEach(RawBreakdown(SmallInput))) == 0.25
    ensures PercentageSum(RoundEach(RawBreakdown(SmallInput)), 0.26) < 96.2
  {
    SmallBreakdown();
    var r := RoundEach(RawBreakdown(SmallInput));
    assert r[4..][1..] == [] && Total(r[4..]) == 0.25;
    assert r[3..][1..] == r[4..] && Total(r[3..]) == 0.25;
    assert r[2..][1..] == r[3..] && Total(r[2..]) == 0.25;
    assert r[1..][1..] == r[2..] && Total(r[1..]) == 0.25;
    PercentagesShareTotal(r, 0.26);
  }

  /** Rounded to tenths, the shares the insights record for the small footprint add up to exactly 96.2. */
  lemma {:induction false} SmallRecordedShares(insights: seq<Insight>)
    requires |insights| == 5
    requires forall i :: 0 <= i < 5 ==>
      insights[i].percentage == Round1(Percentage(RoundEach(RawBreakdown(SmallInput))[i].emissions, Round2(Total(RawBreakdown(SmallInput)))))
    ensures RecordedPercentageSum(insights) == 96.2
  {
    SmallBreakdown();
    assert NearestInt(Percentage(0.0, 0.26) * 10.0) == 0;
    assert NearestInt(Percentage(0.25, 0.26) * 10.0) == 962;
    assert insights[0].percentage == 0.0 && insights[1].percentage == 0.0;
    assert insights[2].percentage == 0.0 && insights[3].percentage == 0.0;
    assert insights[4].percentage == 96.2;
    assert insights[4..][1..] == [] && RecordedPercentageSum(insights[4..]) == 96.2;
    assert insights[3..][1..] == insights[4..] && RecordedPercentageSum(insights[3..]) == 96.2;
    assert insights[2..][1..] == insights[3..] && RecordedPercentageSum(insights[2..]) == 96.2;
    assert insights[1..][1..] == insights[2..] && RecordedPercentageSum(insights[1..]) == 96.2;
  }

  /** A large oil-heated house, a little dairy and a good deal of shopping. */
  const OilHeatedInput: LifestyleInput := LifestyleInput(
    0, 0, "Car (Petrol)", 0.0, "Never", "Rarely", 37.0, 23.0, "Large House", "Oil Heating")

  lemma OilHeatedBreakdown()
    ensures RoundEach(RawBreakdown(OilHeatedInput)) ==
      [Entry("travel", 0.0), Entry("transport", 0.0), Entry("diet", 0.1),
       Entry("shopping", 15.24), Entry("home_energy", 6.5)]
    ensures Round2(Total(RawBreakdown(OilHeatedInput))) == 21.84
  {
    var b := RawBreakdown(OilHeatedInput);
    assert b == [Entry("travel", 0.0), Entry("transport", 0.0), Entry("diet", 0.1),
                 Entry("shopping", 15.24), Entry("home_energy", 6.5)];
    assert NearestInt(0.0 * 100.0) == 0;
    assert NearestInt(0.1 * 100.0) == 10;
    assert NearestInt(15.24 * 100.0) == 1524;
    assert NearestInt(6.5 * 100.0) == 650;
    TotalOfRaw(OilHeatedInput);
    assert Total(b) == 21.84;
    assert NearestInt(21.84 * 100.0) == 2184;
  }

  /**
    For the oil-heated house the breakdown adds up to the total, yet the
    shares the insights record add up to 100.1: rounding each share to a
    tenth takes their sum, times the total, more than 2 away from 100
    times the total.
   */
  lemma {:induction false} OilHeatedRecordedShares(insights: seq<Insight>)
    requires |insights| == 5
    requires forall i :: 0 <= i < 5 ==>
      insights[i].percentage == Round1(Percentage(RoundEach(RawBreakdown(OilHeatedInput))[i].emissions, Round2(Total(RawBreakdown(OilHeatedInput)))))
    ensures RecordedPercentageSum(insights) == 100.1
    ensures (RecordedPercentageSum(insights) - 100.0) * Round2(Total(RawBreakdown(OilHeatedInput))) > 2.0
  {
    OilHeatedBreakdown();
    assert NearestInt(Percentage(0.0, 21.84) * 10.0) == 0;
    assert NearestInt(Percentage(0.1, 21.84) * 10.0) == 5;
    assert NearestInt(Percentage(15.24, 21.84) * 10.0) == 698;
    assert NearestInt(Percentage(6.5, 21.84) * 10.0) == 298;
    assert insights[0].percentage == 0.0 && insights[1].percentage == 0.0;
    assert insights[2].percentage == 0.5 && insights[3].percentage == 69.8;
    assert insights[4].percentage == 29.8;
    assert insights[4..][1..] == [] && RecordedPercentageSum(insights[4..]) == 29.8;
    assert insights[3..][1..] == insights[4..] && RecordedPercentageSum(insights[3..]) == 99.6;
    assert insights[2..][1..] == insights[3..] && RecordedPercentageSum(insights[2..]) == 100.1;
    assert insights[1..][1..] == insights[2..] && RecordedPercentageSum(insights[1..]) == 100.1;
  }
}
