/** The ticker form of src/components/QuickAnalysisForm.tsx: the ticker
    sanitiser, the tier list items (shared verbatim with
    src/components/AdvancedDataForm.tsx) and the props the form reads. */
module QuickAnalysisForm {
  import opened Wrappers
  import opened Text
  import opened TierConfig

  const MaxTickerLength: nat := 6

  /** The characters the `/[^A-Za-z0-9.]/g` replacement keeps. */
  predicate IsKept(c: char) { IsLower(c) || IsUpper(c) || IsDigit(c) || c == '.' }

  /** The characters a sanitised ticker may hold. */
  predicate IsTickerChar(c: char) { IsUpper(c) || IsDigit(c) || c == '.' }

  /** `value.replace(/[^A-Za-z0-9.]/g, "")`: the kept characters, in order. */
  function Kept(s: string): (k: string)
    ensures |k| <= |s|
    ensures forall i :: 0 <= i < |k| ==> IsKept(k[i])
  {
    if s == [] then [] else (if IsKept(s[0]) then [s[0]] else []) + Kept(s[1..])
  }

  /** Filtering distributes over concatenation, so kept characters stay in
      their original order. */
  lemma {:induction false} KeptAppend(a: string, b: string)
    ensures Kept(a + b) == Kept(a) + Kept(b)
  {
    if a == [] {
      assert a + b == b;
    } else {
      assert (a + b)[0] == a[0];
      assert (a + b)[1..] == a[1..] + b;
      KeptAppend(a[1..], b);
    }
  }

  /** A string made only of kept characters passes the filter unchanged. */
  lemma {:induction false} KeptAllKept(s: string)
    requires forall i :: 0 <= i < |s| ==> IsKept(s[i])
    ensures Kept(s) == s
  {
    if s != [] {
      KeptAllKept(s[1..]);
    }
  }

  /** `handleTickerChange`: drop disallowed characters, upper-case, keep at
      most six. The result is short and made of A-Z, 0-9 and '.'. */
  function Sanitize(s: string): (r: string)
    ensures |r| <= MaxTickerLength
    ensures |r| == Min(|Kept(s)|, MaxTickerLength)
    ensures forall i :: 0 <= i < |r| ==> IsTickerChar(r[i]) && r[i] == UpperChar(Kept(s)[i])
  {
    Upper(Kept(s))[..Min(|Kept(s)|, MaxTickerLength)]
  }

  /** Input that is already a clean ticker passes through unchanged. */
  lemma SanitizeClean(s: string)
    requires |s| <= MaxTickerLength
    requires forall i :: 0 <= i < |s| ==> IsTickerChar(s[i])
    ensures Sanitize(s) == s
  {
    KeptAllKept(s);
    UpperNoLower(s);
  }

  /** Sanitising is idempotent. */
  lemma SanitizeIdempotent(s: string)
    ensures Sanitize(Sanitize(s)) == Sanitize(s)
  {
    SanitizeClean(Sanitize(s));
  }

  /** Characters appended after six kept ones never change the ticker. */
  lemma SanitizeIgnoresTail(s: string, tail: string)
    requires |Kept(s)| >= MaxTickerLength
    ensures Sanitize(s + tail) == Sanitize(s)
  {
    KeptAppend(s, tail);
    var k, kt := Kept(s), Kept(s + tail);
    assert kt[..|k|] == k;
    assert Sanitize(s + tail) == Upper(kt)[..MaxTickerLength];
    assert Upper(kt)[..MaxTickerLength] == Upper(k)[..MaxTickerLength];
  }

  // ---- Tier list items ----

  /** The icon shown before a tier label (`tierIcons`). */
  datatype ItemIcon = CheckIcon | DollarIcon | CrownIcon

  function TierItemIcon(id: string): (icon: Option<ItemIcon>)
    ensures icon.Some? <==> id in {"lite", "standard", "premium"}
  {
    if id == "lite" then Some(CheckIcon)
    else if id == "standard" then Some(DollarIcon)
    else if id == "premium" then Some(CrownIcon)
    else None
  }

  /** `tierBorderColors` */
  function TierBorderColor(id: string): (cls: Option<string>)
    ensures cls.Some? <==> id in {"lite", "standard", "premium"}
  {
    if id == "lite" then Some("border-l-success")
    else if id == "standard" then Some("border-l-primary")
    else if id == "premium" then Some("border-l-accent")
    else None
  }

  /** How one tier renders in the tier select. */
  datatype TierItemView = TierItemView(selected: bool, border: string, icon: Option<ItemIcon>, text: string)

  /** The select item of tier `t` while `current` is the chosen tier id. */
  function TierItem(current: string, t: Tier): (v: TierItemView)
    ensures v.selected <==> t.id == current
    ensures v.selected && t.id in {"lite", "standard", "premium"} ==> v.border == TierBorderColor(t.id).value
    ensures v.selected && t.id !in {"lite", "standard", "premium"} ==> v.border == ""
    ensures !v.selected ==> v.border == "border-l-transparent"
    ensures v.icon.None? <==> t.id !in {"lite", "standard", "premium"}
    ensures v.text == t.tierLabel
  {
    var selected := current == t.id;
    TierItemView(selected,
                 if selected then TierBorderColor(t.id).GetOr("") else "border-l-transparent",
                 TierItemIcon(t.id),
                 t.tierLabel)
  }

  /** `(tiers || []).map(...)`: one item per tier, in catalogue order. */
  function TierItems(current: string, tiers: seq<Tier>): (items: seq<TierItemView>)
    ensures |items| == |tiers|
    ensures forall i :: 0 <= i < |tiers| ==> items[i] == TierItem(current, tiers[i])
  {
    seq(|tiers|, i requires 0 <= i < |tiers| => TierItem(current, tiers[i]))
  }

  /** In a catalogue with distinct ids exactly one item is selected when the
      current id is listed, and none otherwise. */
  lemma OneSelectedItem(current: string, tiers: seq<Tier>)
    requires forall i, j :: 0 <= i < j < |tiers| ==> tiers[i].id != tiers[j].id
    ensures forall i, j :: 0 <= i < j < |tiers| ==>
      !(TierItems(current, tiers)[i].selected && TierItems(current, tiers)[j].selected)
    ensures (exists i :: 0 <= i < |tiers| && TierItems(current, tiers)[i].selected) <==>
      (exists i :: 0 <= i < |tiers| && tiers[i].id == current)
  {
    var items := TierItems(current, tiers);
    if exists i :: 0 <= i < |tiers| && tiers[i].id == current {
      var i :| 0 <= i < |tiers| && tiers[i].id == current;
      assert items[i].selected;
    }
  }

  // ---- Props ----

  /** A JSX prop value: a string, or a callback that sets the parent's state
      variable of that name. */
  datatype PropValue = Str(s: string) | Setter(stateName: string)

  /** The props `QuickAnalysisFormProps` declares as required. */
  const RequiredProps: set<string> := {
    "ticker", "onTickerChange", "interval", "onIntervalChange",
    "period", "onPeriodChange", "tier", "onTierChange"
  }

  /** The option values of the candle-interval and look-back selects. */
  const IntervalValues: seq<string> := ["1h", "4h", "1d", "1wk", "1mo"]
  const PeriodValues: seq<string> := ["5d", "1mo", "3mo", "6mo", "1y", "2y", "5y"]

  /** Choosing `v` in the interval select: the parent state variable that
      receives `v`, or None when `onIntervalChange` is not supplied and the
      choice goes nowhere. */
  function SelectInterval(props: map<string, PropValue>, v: string): (update: Option<(string, string)>)
    ensures update.Some? <==> "onIntervalChange" in props && props["onIntervalChange"].Setter?
  {
    if "onIntervalChange" in props && props["onIntervalChange"].Setter?
    then Some((props["onIntervalChange"].stateName, v))
    else None
  }

  /** The same for the look-back period select. */
  function SelectPeriod(props: map<string, PropValue>, v: string): (update: Option<(string, string)>)
    ensures update.Some? <==> "onPeriodChange" in props && props["onPeriodChange"].Setter?
  {
    if "onPeriodChange" in props && props["onPeriodChange"].Setter?
    then Some((props["onPeriodChange"].stateName, v))
    else None
  }
}
