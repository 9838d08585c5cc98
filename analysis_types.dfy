/** The analysis payload shapes of src/types/analysis.ts, the subset of the
    full-analysis response the submission flow reads, and the fixed demo
    result `mockResult`. Prices and percentages are exact rationals. */
module AnalysisTypes {
  import opened Wrappers
  import opened Text

  /** `direction` is "up" | "down" in the type, but it arrives as JSON text,
      so every view has to say what it does with any other string. */
  datatype GapData = GapData(date: string, direction: string, sizePercent: real, gapType: string, filled: bool)

  datatype SupportResistanceLevel =
    SupportResistanceLevel(price: real, levelType: string, strength: real, distancePercent: real)

  datatype SupplyDemandZone =
    SupplyDemandZone(zoneType: string, rangeLow: real, rangeHigh: real, pattern: string, strength: real, isFresh: bool)

  datatype DateRange = DateRange(start: string, end: string)

  datatype AnalysisResult = AnalysisResult(
    symbol: string,
    currentPrice: real,
    timeframe: string,
    dateRange: DateRange,
    gaps: seq<GapData>,
    levels: seq<SupportResistanceLevel>,
    zones: seq<SupplyDemandZone>)

  /** The body of a successful full-analysis response, reduced to the three
      optional fields the submission flow reads (`metadata.symbol`,
      `cost_summary.total_cost`, `synthesis.verdict`); the flow stores and
      forwards it verbatim. */
  datatype Payload = Payload(metadataSymbol: Option<string>, totalCost: Option<real>, verdict: Option<string>)

  const MockResult: AnalysisResult := AnalysisResult(
    "AAPL", 189.84, "1D", DateRange("2025-01-01", "2026-02-14"),
    [ GapData("2026-02-10", "up", 2.3, "Breakaway", false),
      GapData("2026-02-05", "down", 1.1, "Common", true),
      GapData("2026-01-28", "up", 3.7, "Runaway", false),
      GapData("2026-01-15", "down", 0.8, "Common", true),
      GapData("2026-01-08", "up", 1.5, "Exhaustion", true) ],
    [ SupportResistanceLevel(185.50, "support", 92.0, -2.3),
      SupportResistanceLevel(195.00, "resistance", 88.0, 2.7),
      SupportResistanceLevel(178.20, "support", 75.0, -6.1),
      SupportResistanceLevel(200.00, "resistance", 70.0, 5.4),
      SupportResistanceLevel(172.00, "support", 65.0, -9.4) ],
    [ SupplyDemandZone("demand", 183.00, 186.50, "Rally-Base-Rally", 85.0, true),
      SupplyDemandZone("supply", 194.00, 197.20, "Drop-Base-Drop", 78.0, true),
      SupplyDemandZone("demand", 175.50, 179.00, "Rally-Base-Drop", 60.0, false) ])

  /** The demo result has five gaps, five levels and three zones. */
  lemma MockCounts()
    ensures |MockResult.gaps| == 5 && |MockResult.levels| == 5 && |MockResult.zones| == 3
  {
  }

  /** Every demo zone is a proper price range. */
  lemma MockZonesWellFormed()
    ensures forall z :: z in MockResult.zones ==> z.rangeLow < z.rangeHigh
  {
  }

  /** Demo support levels sit below the current price with a negative
      distance; demo resistance levels sit above it with a positive one. */
  lemma MockLevelsOnTheirSide()
    ensures forall l :: l in MockResult.levels && l.levelType == "support" ==>
      l.price < MockResult.currentPrice && l.distancePercent < 0.0
    ensures forall l :: l in MockResult.levels && l.levelType == "resistance" ==>
      l.price > MockResult.currentPrice && l.distancePercent > 0.0
    ensures forall l :: l in MockResult.levels ==> l.levelType in {"support", "resistance"}
  {
  }

  /** Demo level strengths are percentages. */
  lemma MockStrengthsInRange()
    ensures forall l :: l in MockResult.levels ==> 0.0 <= l.strength <= 100.0
  {
  }

  /** Demo gaps are listed newest date first. */
  lemma MockGapsNewestFirst()
    ensures forall i :: 0 < i < |MockResult.gaps| ==>
      LexLess(MockResult.gaps[i].date, MockResult.gaps[i - 1].date)
  {
    forall i | 0 < i < |MockResult.gaps|
      ensures LexLess(MockResult.gaps[i].date, MockResult.gaps[i - 1].date)
    {
      var newer, older := MockResult.gaps[i - 1].date, MockResult.gaps[i].date;
      // the dates first differ in the month digit (i == 2) or the day digit
      var k := if i == 2 then 6 else 8;
      assert older[..k] == newer[..k] && older[k] < newer[k];
      LexLessAt(older, newer, k);
    }
  }
}
