/** src/components/LevelsCard.tsx: the support/resistance table of the
    results card grid. */
module LevelsCard {
  import opened Seqs
  import opened AnalysisTypes
  import opened Display

  const MaxRows: nat := 5

  datatype LevelRow = LevelRow(price: real, typeLabel: string, typeTone: Tone, strength: real,
                               sign: string, distancePercent: real, distanceTone: Tone)

  /** The colour of the distance cell: success only for a positive distance,
      so a level at zero distance is coloured like one below the price. */
  function DistanceTone(d: real): (t: Tone)
    ensures t == SuccessText <==> SignPrefix(d) == "+"
  {
    if d > 0.0 then SuccessText else DestructiveText
  }

  function LevelRowOf(l: SupportResistanceLevel): (row: LevelRow)
    ensures row.typeLabel == SupportLabel <==> l.levelType == "support"
    ensures row.typeLabel == ResistanceLabel <==> l.levelType != "support"
    ensures row.typeTone == SuccessText <==> l.levelType == "support"
    ensures row.sign == "+" <==> l.distancePercent > 0.0
    ensures row.distanceTone == SuccessText <==> l.distancePercent > 0.0
    ensures row.price == l.price && row.strength == l.strength && row.distancePercent == l.distancePercent
  {
    var support := l.levelType == "support";
    LevelRow(l.price, if support then SupportLabel else ResistanceLabel,
             if support then SuccessText else DestructiveText, l.strength,
             SignPrefix(l.distancePercent), l.distancePercent, DistanceTone(l.distancePercent))
  }

  /** `levels.slice(0, 5).map(…)` */
  function LevelRows(levels: seq<SupportResistanceLevel>): (rows: seq<LevelRow>)
    ensures |rows| == if |levels| < MaxRows then |levels| else MaxRows
    ensures forall i :: 0 <= i < |rows| ==> rows[i] == LevelRowOf(levels[i])
  {
    var shown := Take(levels, MaxRows);
    seq(|shown|, i requires 0 <= i < |shown| => LevelRowOf(shown[i]))
  }

  /** On the demo result a row carries "+" exactly when it is a resistance,
      since its supports lie below the price and its resistances above. */
  lemma MockLevelSigns()
    ensures forall i :: 0 <= i < |LevelRows(MockResult.levels)| ==>
      (LevelRows(MockResult.levels)[i].sign == "+" <==> LevelRows(MockResult.levels)[i].typeLabel == ResistanceLabel)
  {
    MockLevelsOnTheirSide();
  }
}
