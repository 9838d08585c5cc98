/** src/components/ZonesCard.tsx: the supply/demand zone list of the
    results card grid. */
module ZonesCard {
  import opened Seqs
  import opened AnalysisTypes
  import opened Display

  const MaxCards: nat := 3

  function IsFresh(z: SupplyDemandZone): bool { z.isFresh }

  /** `zones.filter(z => z.fresh).length`, over every zone. */
  function FreshCount(zones: seq<SupplyDemandZone>): (n: nat)
    ensures n <= |zones|
    ensures n == 0 <==> forall i :: 0 <= i < |zones| ==> !zones[i].isFresh
  {
    Count(zones, IsFresh)
  }

  /** The badge counts the hidden zones too: it is the fresh count of the
      cards shown plus that of the zones beyond the third. */
  lemma FreshCountIncludesHidden(zones: seq<SupplyDemandZone>)
    ensures |zones| > MaxCards ==>
      FreshCount(zones) == FreshCount(zones[..MaxCards]) + FreshCount(zones[MaxCards..])
    ensures FreshCount(Take(zones, MaxCards)) <= FreshCount(zones)
  {
    var k := if |zones| < MaxCards then |zones| else MaxCards;
    assert zones == zones[..k] + zones[k..];
    CountAppend(zones[..k], zones[k..], IsFresh);
  }

  datatype Border = Highlighted | Plain

  datatype ZoneCardView = ZoneCardView(border: Border, typeLabel: string, tone: Tone, star: bool,
                                       strength: real, rangeLow: real, rangeHigh: real, pattern: string)

  function ZoneCardOf(z: SupplyDemandZone): (v: ZoneCardView)
    ensures v.border == Highlighted <==> z.isFresh
    ensures v.star <==> z.isFresh
    ensures v.typeLabel == DemandLabel <==> z.zoneType == "demand"
    ensures v.typeLabel == SupplyLabel <==> z.zoneType != "demand"
    ensures v.tone == SuccessText <==> z.zoneType == "demand"
    ensures v.strength == z.strength && v.rangeLow == z.rangeLow && v.rangeHigh == z.rangeHigh && v.pattern == z.pattern
  {
    var demand := z.zoneType == "demand";
    ZoneCardView(if z.isFresh then Highlighted else Plain, if demand then DemandLabel else SupplyLabel,
                 if demand then SuccessText else DestructiveText, z.isFresh,
                 z.strength, z.rangeLow, z.rangeHigh, z.pattern)
  }

  /** `zones.slice(0, 3).map(…)` */
  function ZoneCards(zones: seq<SupplyDemandZone>): (cards: seq<ZoneCardView>)
    ensures |cards| == if |zones| < MaxCards then |zones| else MaxCards
    ensures forall i :: 0 <= i < |cards| ==> cards[i] == ZoneCardOf(zones[i])
  {
    var shown := Take(zones, MaxCards);
    seq(|shown|, i requires 0 <= i < |shown| => ZoneCardOf(shown[i]))
  }

  /** The demo result: three cards, two of them starred, badge "2 fresh". */
  lemma MockZoneCards()
    ensures FreshCount(MockResult.zones) == 2
    ensures |ZoneCards(MockResult.zones)| == 3
  {
    var z := MockResult.zones;
    assert z[1..][1..][1..] == [];
  }
}
