/** The persisted analysis history of src/lib/analysisHistory.ts: a list of
    at most ten records kept under one storage key, newest first. The storage
    slot holds either a parsable record list or text that does not parse;
    whether a write fits the storage quota is a parameter of the write. */
module AnalysisHistory {
  import opened Wrappers
  import opened Text
  import opened Seqs
  import opened AnalysisTypes

  const StorageKey: string := "analysis_history"
  const MaxRecords: nat := 10
  /** Entries at an index above this one lose `fullResults` in the degraded retry. */
  const LastWholeIndex: nat := 4

  /** `status` is declared as required, but callers may leave it out; an
      absent field reads back as None. */
  datatype AnalysisRecord = AnalysisRecord(
    id: string,
    symbol: string,
    date: string,
    tier: string,
    cost: real,
    status: Option<string>,
    verdict: Option<string>,
    fullResults: Option<Payload>)

  /** What a caller of `saveAnalysis` supplies: a record without `id` and `date`. */
  datatype RecordInput = RecordInput(
    symbol: string,
    tier: string,
    cost: real,
    status: Option<string>,
    verdict: Option<string>,
    fullResults: Option<Payload>)

  /** The text under the storage key, once parsed. */
  datatype StoredHistory = Records(records: seq<AnalysisRecord>) | Unparseable(raw: string)

  /** `getAnalysisHistory`: a missing key, an empty string or text that does
      not parse all read as the empty list. */
  function ReadHistory(slot: Option<StoredHistory>): (h: seq<AnalysisRecord>)
    ensures slot.None? || slot.value.Unparseable? ==> h == []
  {
    match slot
    case Some(Records(rs)) => rs
    case _ => []
  }

  /** The caller's fields of a record. */
  function InputOf(r: AnalysisRecord): RecordInput {
    RecordInput(r.symbol, r.tier, r.cost, r.status, r.verdict, r.fullResults)
  }

  /** The record `saveAnalysis` builds: the caller's fields plus a fresh id
      and timestamp, which are parameters here. */
  function NewRecord(input: RecordInput, id: string, date: string): (r: AnalysisRecord)
    ensures r.id == id && r.date == date
  {
    AnalysisRecord(id, input.symbol, date, input.tier, input.cost, input.status, input.verdict, input.fullResults)
  }

  /** The new record keeps every field the caller supplied. */
  lemma NewRecordKeepsInput(input: RecordInput, id: string, date: string)
    ensures InputOf(NewRecord(input, id, date)) == input
  {
  }

  /** `[newRecord, ...history].slice(0, MAX_RECORDS)` */
  function Prepended(history: seq<AnalysisRecord>, r: AnalysisRecord): (u: seq<AnalysisRecord>)
    ensures |u| == Min(|history| + 1, MaxRecords)
    ensures u[0] == r
    ensures u[1..] == history[..|u| - 1]
  {
    ([r] + history)[..Min(|history| + 1, MaxRecords)]
  }

  /** The stored list never exceeds the retention count, and once it is
      full each save evicts exactly the oldest record. */
  lemma PrependedEvictsOldest(history: seq<AnalysisRecord>, r: AnalysisRecord)
    requires |history| <= MaxRecords
    ensures |Prepended(history, r)| <= MaxRecords
    ensures |history| < MaxRecords ==> Prepended(history, r) == [r] + history
    ensures |history| == MaxRecords ==> Prepended(history, r) == [r] + history[..MaxRecords - 1]
  {
    var u := Prepended(history, r);
    assert u == [u[0]] + u[1..];
  }

  /** The degraded retry: entries 0..4 unchanged, `fullResults` cleared on
      every later entry. */
  function Trimmed(u: seq<AnalysisRecord>): (t: seq<AnalysisRecord>)
    ensures |t| == |u|
  {
    seq(|u|, i requires 0 <= i < |u| => if i > LastWholeIndex then u[i].(fullResults := None) else u[i])
  }

  /** Trimming keeps the first five entries whole and, on the later ones,
      changes nothing but `fullResults`. */
  lemma TrimmedDropsOnlyOldPayloads(u: seq<AnalysisRecord>)
    ensures forall i :: 0 <= i < |u| && i <= LastWholeIndex ==> Trimmed(u)[i] == u[i]
    ensures forall i :: LastWholeIndex < i < |u| ==>
      Trimmed(u)[i].fullResults.None? && Trimmed(u)[i] == u[i].(fullResults := None)
    ensures forall i :: 0 <= i < |u| ==>
      var t := Trimmed(u)[i];
      t.id == u[i].id && t.symbol == u[i].symbol && t.date == u[i].date && t.tier == u[i].tier &&
      t.cost == u[i].cost && t.status == u[i].status && t.verdict == u[i].verdict
  {
  }

  /** Trimming twice is the same as trimming once. */
  lemma TrimmedIdempotent(u: seq<AnalysisRecord>)
    ensures Trimmed(Trimmed(u)) == Trimmed(u)
  {
  }

  /** How a save ended: written whole, written after trimming, or the retry
      write failed too and the error propagated to the caller. */
  datatype SaveOutcome = Written | WrittenTrimmed | RetryFailed

  /** The list a save writes, given which writes fit in storage. */
  function SavedList(history: seq<AnalysisRecord>, r: AnalysisRecord, firstWriteFits: bool): seq<AnalysisRecord> {
    if firstWriteFits then Prepended(history, r) else Trimmed(Prepended(history, r))
  }

  /** Whichever write succeeds, the stored list begins with the new record,
      complete with its payload, followed by the newest earlier records in
      order, at most ten in all. */
  lemma SavedListShape(history: seq<AnalysisRecord>, r: AnalysisRecord, firstWriteFits: bool)
    ensures |SavedList(history, r, firstWriteFits)| == Min(|history| + 1, MaxRecords)
    ensures SavedList(history, r, firstWriteFits)[0] == r
    ensures forall i :: 1 <= i < |SavedList(history, r, firstWriteFits)| ==>
      SavedList(history, r, firstWriteFits)[i] == history[i - 1].(fullResults := SavedList(history, r, firstWriteFits)[i].fullResults)
    ensures forall i :: 1 <= i < |SavedList(history, r, firstWriteFits)| && (i <= LastWholeIndex || firstWriteFits) ==>
      SavedList(history, r, firstWriteFits)[i] == history[i - 1]
  {
    var u := Prepended(history, r);
    assert forall i :: 1 <= i < |u| ==> u[i] == history[i - 1] by {
      forall i | 1 <= i < |u| ensures u[i] == history[i - 1] {
        assert u[i] == u[1..][i - 1];
      }
    }
  }

  /** `getAnalysisById`: the first record with that id, if any. */
  function GetAnalysisById(history: seq<AnalysisRecord>, id: string): (r: Option<AnalysisRecord>)
    ensures r.None? <==> forall i :: 0 <= i < |history| ==> history[i].id != id
    ensures r.Some? ==> r.value.id == id
    ensures r.Some? ==> exists i :: 0 <= i < |history| && history[i] == r.value &&
                                    forall j :: 0 <= j < i ==> history[j].id != id
  {
    match FindFirst(history, (h: AnalysisRecord) => h.id == id)
    case None => None
    case Some(k) => Some(history[k])
  }

  /** Right after a save, looking up the new id finds the new record, as
      long as no older record carries the same id. */
  lemma SavedRecordFoundById(history: seq<AnalysisRecord>, input: RecordInput, id: string, date: string, firstWriteFits: bool)
    ensures GetAnalysisById(SavedList(history, NewRecord(input, id, date), firstWriteFits), id) == Some(NewRecord(input, id, date))
  {
    var s := SavedList(history, NewRecord(input, id, date), firstWriteFits);
    SavedListShape(history, NewRecord(input, id, date), firstWriteFits);
    assert s[0].id == id;
  }

  /** The storage slot under `analysis_history`. */
  class HistoryStorage {
    var slot: Option<StoredHistory>

    constructor (initial: Option<StoredHistory>)
      ensures slot == initial
    {
      slot := initial;
    }

    /** `saveAnalysis`: read the list, prepend the new record, cap at ten
        and write; if that write fails, write the trimmed list instead; if
        that fails too, nothing is written and the error reaches the caller. */
    method SaveAnalysis(input: RecordInput, id: string, date: string, firstWriteFits: bool, retryFits: bool)
      returns (outcome: SaveOutcome)
      modifies this
      ensures outcome == (if firstWriteFits then Written else if retryFits then WrittenTrimmed else RetryFailed)
      ensures outcome != RetryFailed ==>
        slot == Some(Records(SavedList(ReadHistory(old(slot)), NewRecord(input, id, date), firstWriteFits)))
      ensures outcome == RetryFailed ==> slot == old(slot)
    {
      var history := ReadHistory(slot);
      var newRecord := NewRecord(input, id, date);
      var updated := Prepended(history, newRecord);
      if firstWriteFits {
        slot := Some(Records(updated));
        outcome := Written;
      } else if retryFits {
        slot := Some(Records(Trimmed(updated)));
        outcome := WrittenTrimmed;
      } else {
        outcome := RetryFailed;
      }
    }
  }
}
