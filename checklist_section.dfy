/** One checklist section: whether all of its items are checked, how many
    are, and the effect that collapses the section when it becomes complete. */
module Section {

  /** Every item id is checked and there is at least one item. */
  predicate AllChecked(itemIds: seq<string>, checked: set<string>) {
    |itemIds| > 0 && forall i :: 0 <= i < |itemIds| ==> itemIds[i] in checked
  }

  /** Number of items whose id is checked. */
  function CheckedCount(itemIds: seq<string>, checked: set<string>): (n: nat)
    ensures n <= |itemIds|
  {
    if itemIds == [] then 0
    else CheckedCount(itemIds[..|itemIds| - 1], checked) + (if itemIds[|itemIds| - 1] in checked then 1 else 0)
  }

  /** The count is full exactly when no item is unchecked. */
  lemma {:induction false} FullCountIffAllIn(itemIds: seq<string>, checked: set<string>)
    ensures CheckedCount(itemIds, checked) == |itemIds| <==> forall i :: 0 <= i < |itemIds| ==> itemIds[i] in checked
    decreases |itemIds|
  {
    if itemIds != [] {
      var init := itemIds[..|itemIds| - 1];
      FullCountIffAllIn(init, checked);
      assert forall i :: 0 <= i < |init| ==> init[i] == itemIds[i];
    }
  }

  /** A section is complete exactly when it has items and all are counted;
      an empty section is never complete. */
  lemma AllCheckedIffFullCount(itemIds: seq<string>, checked: set<string>)
    ensures AllChecked(itemIds, checked) <==> |itemIds| > 0 && CheckedCount(itemIds, checked) == |itemIds|
    ensures itemIds == [] ==> !AllChecked(itemIds, checked)
  {
    FullCountIffAllIn(itemIds, checked);
  }

  /** The count of a section with nothing checked is zero. */
  lemma {:induction false} NothingCheckedCountsZero(itemIds: seq<string>)
    ensures CheckedCount(itemIds, {}) == 0
    decreases |itemIds|
  {
    if itemIds != [] {
      NothingCheckedCountsZero(itemIds[..|itemIds| - 1]);
    }
  }

  /** One run of the auto-collapse effect: it asks to toggle the section only
      when the section has just become complete and is still expanded, and it
      always remembers the current completion. Returns (toggle, new memory). */
  function CollapseStep(prevAllChecked: bool, allChecked: bool, isCollapsed: bool): (r: (bool, bool))
    ensures r.0 <==> allChecked && !prevAllChecked && !isCollapsed
    ensures r.1 == allChecked
  {
    (allChecked && !prevAllChecked && !isCollapsed, allChecked)
  }

  /** Runs of the effect over a sequence of (allChecked, isCollapsed) pairs,
      returning how many toggles were requested and the final memory. */
  function CollapseRun(prevAllChecked: bool, runs: seq<(bool, bool)>): (bool, nat) {
    if runs == [] then (prevAllChecked, 0)
    else
      var (mem, n) := CollapseRun(prevAllChecked, runs[..|runs| - 1]);
      var (toggle, mem') := CollapseStep(mem, runs[|runs| - 1].0, runs[|runs| - 1].1);
      (mem', n + if toggle then 1 else 0)
  }

  /** Number of false-to-true edges of completion along the runs. */
  function RisingEdges(prevAllChecked: bool, runs: seq<(bool, bool)>): nat {
    if runs == [] then 0
    else
      var last := runs[|runs| - 1].0;
      var before := if |runs| == 1 then prevAllChecked else runs[|runs| - 2].0;
      RisingEdges(prevAllChecked, runs[..|runs| - 1]) + if last && !before then 1 else 0
  }

  /** The memory after any runs is the latest completion, and the effect
      never toggles more often than completion rises from false to true: a
      section that stays complete is collapsed at most once. */
  lemma {:induction false} CollapseOncePerEdge(prevAllChecked: bool, runs: seq<(bool, bool)>)
    ensures CollapseRun(prevAllChecked, runs).0 == (if runs == [] then prevAllChecked else runs[|runs| - 1].0)
    ensures CollapseRun(prevAllChecked, runs).1 <= RisingEdges(prevAllChecked, runs)
    decreases |runs|
  {
    if runs != [] {
      var init := runs[..|runs| - 1];
      CollapseOncePerEdge(prevAllChecked, init);
      if |runs| >= 2 {
        assert init[|init| - 1] == runs[|runs| - 2];
      }
    }
  }

  /** The section view's remembered completion. */
  class SectionView {
    var prevAllChecked: bool

    constructor ()
      ensures !prevAllChecked
    {
      prevAllChecked := false;
    }

    /** One run of the effect; `toggle` says whether it calls the section
        toggle. */
    method AutoCollapse(itemIds: seq<string>, checked: set<string>, isCollapsed: bool) returns (toggle: bool)
      modifies this
      ensures (toggle, prevAllChecked) == CollapseStep(old(prevAllChecked), AllChecked(itemIds, checked), isCollapsed)
    {
      var allChecked := |itemIds| > 0 && forall i :: 0 <= i < |itemIds| ==> itemIds[i] in checked;
      toggle := false;
      if allChecked && !prevAllChecked && !isCollapsed {
        toggle := true;
      }
      prevAllChecked := allChecked;
    }
  }
}
