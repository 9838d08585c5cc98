/** src/components/GapsCard.tsx: the gap table of the results card grid. */
module GapsCard {
  import opened Seqs
  import opened AnalysisTypes
  import opened Display

  const MaxRows: nat := 5

  /** One table row; the direction tone colours both the arrow and the size. */
  datatype GapRow = GapRow(date: string, arrow: string, tone: Tone, sizePercent: real, gapType: string, status: string)

  function GapRowOf(g: GapData): (row: GapRow)
    ensures row.arrow == UpArrow <==> g.direction == "up"
    ensures row.arrow == DownArrow <==> g.direction != "up"
    ensures row.tone == SuccessText <==> g.direction == "up"
    ensures row.status == FilledMark <==> g.filled
    ensures row.status == OpenMark <==> !g.filled
    ensures row.date == g.date && row.sizePercent == g.sizePercent && row.gapType == g.gapType
  {
    var up := g.direction == "up";
    GapRow(g.date, if up then UpArrow else DownArrow, if up then SuccessText else DestructiveText,
           g.sizePercent, g.gapType, if g.filled then FilledMark else OpenMark)
  }

  /** `gaps.slice(0, 5).map(…)` */
  function GapRows(gaps: seq<GapData>): (rows: seq<GapRow>)
    ensures |rows| == if |gaps| < MaxRows then |gaps| else MaxRows
    ensures forall i :: 0 <= i < |rows| ==> rows[i] == GapRowOf(gaps[i])
  {
    var shown := Take(gaps, MaxRows);
    seq(|shown|, i requires 0 <= i < |shown| => GapRowOf(shown[i]))
  }

  /** The header badge: `gaps.length`. */
  function CountBadge(gaps: seq<GapData>): (n: nat)
    ensures n == |gaps|
  {
    |gaps|
  }

  /** The badge reports every gap while the table shows at most five, so
      beyond five the badge exceeds the rows shown by the hidden count. */
  lemma BadgeCountsHiddenGaps(gaps: seq<GapData>)
    ensures |GapRows(gaps)| <= CountBadge(gaps)
    ensures |gaps| > MaxRows ==> CountBadge(gaps) - |GapRows(gaps)| == |gaps| - MaxRows
  {
  }

  /** The demo result fills the table exactly: five gaps, five rows, the
      newest an unfilled up-gap. */
  lemma MockGapTable()
    ensures CountBadge(MockResult.gaps) == |GapRows(MockResult.gaps)| == 5
    ensures GapRows(MockResult.gaps)[0] == GapRow("2026-02-10", UpArrow, SuccessText, 2.3, "Breakaway", OpenMark)
  {
  }
}
