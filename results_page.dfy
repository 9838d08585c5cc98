/** src/pages/ResultsPage.tsx: the results route. Whatever the `:id` and
    the navigation state, it shows the demo result; only the symbol and tier
    in the header come from the navigation state. */
module ResultsPage {
  import opened Wrappers
  import opened Text
  import opened Seqs
  import opened AnalysisTypes
  import opened Display
  import GapsCard
  import LevelsCard
  import ZonesCard

  /** The fields of `location.state` the page reads. */
  datatype LocationState = LocationState(symbol: Option<string>, tier: Option<string>)

  /** `state?.field || fallback`: absent state, absent field or "" fall back. */
  function StateField(field: Option<string>, fallback: string): (v: string)
    ensures field.Some? && field.value != "" ==> v == field.value
    ensures field.None? || field.value == "" ==> v == fallback
  {
    if field.Some? && field.value != "" then field.value else fallback
  }

  function HeaderSymbol(state: Option<LocationState>): (s: string)
    ensures state.None? ==> s == "DEMO"
    ensures state.Some? ==> s == StateField(state.value.symbol, "DEMO")
  {
    if state.Some? then StateField(state.value.symbol, "DEMO") else "DEMO"
  }

  function HeaderTier(state: Option<LocationState>): (t: string)
    ensures state.None? ==> t == "standard"
    ensures state.Some? ==> t == StateField(state.value.tier, "standard")
  {
    if state.Some? then StateField(state.value.tier, "standard") else "standard"
  }

  const EstimatedCost: string := "$2.40"

  /** The level distance colour as written: destructive only below zero,
      so a level at zero distance is green here. */
  function DistanceToneAsWritten(d: real): (t: Tone)
    ensures t == DestructiveText <==> d < 0.0
  {
    if d < 0.0 then DestructiveText else SuccessText
  }

  /** The two result views colour a level at zero distance differently:
      green here, red in the card grid, though neither gives it a "+". */
  lemma ZeroDistanceDisagrees()
    ensures DistanceToneAsWritten(0.0) == SuccessText
    ensures LevelsCard.DistanceTone(0.0) == DestructiveText
    ensures SignPrefix(0.0) == ""
  {
  }

  /** The distance colour the page uses: the card grid's rule, green exactly
      when the "+" sign is shown, and it agrees with the as-written rule
      everywhere except at zero. */
  function DistanceTone(d: real): (t: Tone)
    ensures t == SuccessText <==> SignPrefix(d) == "+"
    ensures t == LevelsCard.DistanceTone(d)
    ensures d != 0.0 ==> t == DistanceToneAsWritten(d)
  {
    LevelsCard.DistanceTone(d)
  }

  datatype LevelRow = LevelRow(price: real, variant: BadgeVariant, typeLabel: string, strength: real,
                               sign: string, distancePercent: real, distanceTone: Tone)

  function LevelRowOf(l: SupportResistanceLevel): (row: LevelRow)
    ensures row.variant == Default <==> l.levelType == "support"
    ensures row.typeLabel == (if l.levelType == "support" then SupportLabel else ResistanceLabel)
    ensures row.sign == "+" <==> l.distancePercent > 0.0
    ensures row.distanceTone == DistanceTone(l.distancePercent)
    ensures row.price == l.price && row.strength == l.strength && row.distancePercent == l.distancePercent
  {
    var support := l.levelType == "support";
    LevelRow(l.price, if support then Default else Destructive, if support then SupportLabel else ResistanceLabel,
             l.strength, SignPrefix(l.distancePercent), l.distancePercent, DistanceTone(l.distancePercent))
  }

  datatype ZoneRow = ZoneRow(star: bool, variant: BadgeVariant, typeText: string,
                             rangeLow: real, rangeHigh: real, pattern: string, strength: real)

  function ZoneRowOf(z: SupplyDemandZone): (row: ZoneRow)
    ensures row.star <==> z.isFresh
    ensures row.variant == Default <==> z.zoneType == "demand"
    ensures row.typeText == Upper(z.zoneType)
    ensures row.rangeLow == z.rangeLow && row.rangeHigh == z.rangeHigh
    ensures row.pattern == z.pattern && row.strength == z.strength
  {
    ZoneRow(z.isFresh, if z.zoneType == "demand" then Default else Destructive, Upper(z.zoneType),
            z.rangeLow, z.rangeHigh, z.pattern, z.strength)
  }

  datatype ResultsView = ResultsView(
    symbol: string, tier: string, result: AnalysisResult, estimatedCost: string,
    gapBadge: nat, gapRows: seq<GapsCard.GapRow>,
    levelRows: seq<LevelRow>,
    freshBadge: nat, zoneRows: seq<ZoneRow>)

  /** The technical tab: every gap, level and zone of the shown result, with
      no truncation, and both badges counted over all of them. */
  function Page(id: string, state: Option<LocationState>): (v: ResultsView)
    ensures v.result == MockResult && v.estimatedCost == EstimatedCost
    ensures v.symbol == HeaderSymbol(state) && v.tier == HeaderTier(state)
    ensures v.gapBadge == |v.gapRows| == |v.result.gaps|
    ensures forall i :: 0 <= i < |v.gapRows| ==> v.gapRows[i] == GapsCard.GapRowOf(v.result.gaps[i])
    ensures |v.levelRows| == |v.result.levels|
    ensures forall i :: 0 <= i < |v.levelRows| ==> v.levelRows[i] == LevelRowOf(v.result.levels[i])
    ensures v.freshBadge == ZonesCard.FreshCount(v.result.zones)
    ensures |v.zoneRows| == |v.result.zones|
    ensures forall i :: 0 <= i < |v.zoneRows| ==> v.zoneRows[i] == ZoneRowOf(v.result.zones[i])
  {
    var r := MockResult;
    ResultsView(HeaderSymbol(state), HeaderTier(state), r, EstimatedCost,
                |r.gaps|, seq(|r.gaps|, i requires 0 <= i < |r.gaps| => GapsCard.GapRowOf(r.gaps[i])),
                seq(|r.levels|, i requires 0 <= i < |r.levels| => LevelRowOf(r.levels[i])),
                ZonesCard.FreshCount(r.zones),
                seq(|r.zones|, i requires 0 <= i < |r.zones| => ZoneRowOf(r.zones[i])))
  }

  /** The `:id` route parameter changes nothing on the page. */
  lemma PageIgnoresId(id1: string, id2: string, state: Option<LocationState>)
    ensures Page(id1, state) == Page(id2, state)
  {
  }

  /** Without navigation state the header reads DEMO / standard, and the
      demo zones give "2 fresh". */
  lemma PageWithoutState(id: string)
    ensures Page(id, None).symbol == "DEMO" && Page(id, None).tier == "standard"
    ensures Page(id, None).freshBadge == 2
  {
    ZonesCard.MockZoneCards();
  }
}
