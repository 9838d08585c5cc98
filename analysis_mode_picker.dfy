/** src/components/AnalysisModePicker.tsx: the two-tab switch between the
    quick and the advanced form. */
module AnalysisModePicker {
  import opened Wrappers

  datatype Mode = Quick | Advanced

  /** `target === "quick" ? "advanced" : "quick"` */
  function Other(m: Mode): (o: Mode)
    ensures o != m
  {
    if m == Quick then Advanced else Quick
  }

  /** The arrow toggle is an involution. */
  lemma OtherInvolution(m: Mode)
    ensures Other(Other(m)) == m
  {
  }

  /** `handleKeyDown(e, target)`: the mode passed to `onChange`, if any. */
  function KeyDown(key: string, target: Mode): (change: Option<Mode>)
    ensures change.Some? <==> key == "ArrowRight" || key == "ArrowLeft"
    ensures change.Some? ==> change.value != target
  {
    if key == "ArrowRight" || key == "ArrowLeft" then Some(Other(target)) else None
  }

  /** Pressing an arrow on the selected tab, then on the tab it selects,
      comes back to the starting mode. */
  lemma ArrowTwiceReturns(mode: Mode, k1: string, k2: string)
    requires k1 in {"ArrowRight", "ArrowLeft"} && k2 in {"ArrowRight", "ArrowLeft"}
    ensures KeyDown(k1, mode).Some?
    ensures KeyDown(k2, KeyDown(k1, mode).value) == Some(mode)
  {
    OtherInvolution(mode);
  }

  /** A click calls `onChange` with the clicked tab's own mode. */
  function Click(tab: Mode): (change: Mode)
    ensures change == tab
  {
    tab
  }

  datatype TabView = TabView(tab: Mode, ariaSelected: bool, tabIndex: int)

  /** The two tabs, quick first. */
  function Tabs(mode: Mode): (tabs: seq<TabView>)
    ensures |tabs| == 2 && tabs[0].tab == Quick && tabs[1].tab == Advanced
    ensures forall i :: 0 <= i < 2 ==> (tabs[i].ariaSelected <==> tabs[i].tab == mode)
    ensures forall i :: 0 <= i < 2 ==> tabs[i].tabIndex == (if tabs[i].ariaSelected then 0 else -1)
  {
    [TabView(Quick, mode == Quick, if mode == Quick then 0 else -1),
     TabView(Advanced, mode == Advanced, if mode == Advanced then 0 else -1)]
  }

  /** Exactly one tab is selected and reachable by Tab, the current mode's. */
  lemma ExactlyOneSelectedTab(mode: Mode)
    ensures exists i :: 0 <= i < 2 && Tabs(mode)[i].ariaSelected && Tabs(mode)[i].tab == mode
    ensures forall i, j :: 0 <= i < 2 && 0 <= j < 2 && Tabs(mode)[i].ariaSelected && Tabs(mode)[j].ariaSelected ==> i == j
    ensures forall i :: 0 <= i < 2 ==> (Tabs(mode)[i].tabIndex == 0 <==> Tabs(mode)[i].ariaSelected)
  {
    var i := if mode == Quick then 0 else 1;
    assert Tabs(mode)[i].ariaSelected;
  }
}
