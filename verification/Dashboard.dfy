/** Closing the gaps that removed dashboard panels leave (dashboard.rs). */
module Dashboard {
  import opened Filtering
  import opened Primitives

  /** A panel on the grid; a missing position counts as zero. */
  datatype Panel = Panel(id: Option<u64>, x: u64, y: u64, w: u64, h: u64)

  predicate Removed(ids: set<u64>, panel: Panel) {
    panel.id.Some? && panel.id.value in ids
  }

  function RemovedIs(ids: set<u64>, removed: bool): Panel -> bool {
    (panel: Panel) => Removed(ids, panel) == removed
  }

  function Where(panels: seq<Panel>, ids: set<u64>, removed: bool): seq<Panel> {
    Filter(panels, RemovedIs(ids, removed))
  }

  /** The panels without an id among `ids` survive, and no others. */
  lemma OnlyNamedPanelsGo(panels: seq<Panel>, ids: set<u64>, panel: Panel)
    ensures panel in Where(panels, ids, true) <==> panel in panels && exists id :: id in ids && panel.id == Some(id)
    ensures panel in Where(panels, ids, false) <==> panel in panels && forall id :: id in ids ==> panel.id != Some(id)
  {
    FilterKeepsExactly(panels, RemovedIs(ids, true), panel);
    FilterKeepsExactly(panels, RemovedIs(ids, false), panel);
  }

  /** The heights of the removed panels that start above `y`. */
  function Shift(removed: seq<Panel>, y: nat): nat {
    if removed == [] then 0
    else
      var n := |removed| - 1;
      Shift(removed[..n], y) + if removed[n].y < y then removed[n].h else 0
  }

  function Raised(removed: seq<Panel>, panel: Panel): Panel {
    var shift := Shift(removed, panel.y);
    panel.(y := if shift > panel.y then 0 else panel.y - shift)
  }

  /** A panel rises by what was removed above it, or to the top if that is more. */
  lemma RaisedByTheShift(removed: seq<Panel>, panel: Panel)
    ensures var raised := Raised(removed, panel);
            && raised == panel.(y := raised.y) && raised.y + Shift(removed, panel.y) >= panel.y
            && (raised.y == 0 || raised.y + Shift(removed, panel.y) == panel.y)
  {
  }

  class Grid {
    var panels: seq<Panel>

    constructor (panels: seq<Panel>)
      ensures this.panels == panels
    {
      this.panels := panels;
    }

    /** Sums as the source does, over every removed panel, for every survivor. */
    method RemovePanels(ids: set<u64>)
      modifies this
      ensures var removed := Where(old(panels), ids, true);
              var kept := Where(old(panels), ids, false);
              panels == seq(|kept|, i requires 0 <= i < |kept| => Raised(removed, kept[i]))
      ensures forall p :: p in panels ==> forall id :: id in ids ==> p.id != Some(id)
      ensures forall q :: q in old(panels) && (forall id :: id in ids ==> q.id != Some(id)) ==>
                exists p :: p in panels && p.(y := q.y) == q
    {
      ghost var before := panels;
      var removed := Where(panels, ids, true);
      panels := Where(panels, ids, false);
      for i := 0 to |panels|
        invariant |panels| == |Where(old(panels), ids, false)|
        invariant forall j :: 0 <= j < i ==> panels[j] == Raised(removed, Where(old(panels), ids, false)[j])
        invariant forall j :: i <= j < |panels| ==> panels[j] == Where(old(panels), ids, false)[j]
      {
        var y := panels[i].y;
        var shift := 0;
        for k := 0 to |removed|
          invariant shift == Shift(removed[..k], y)
        {
          assert removed[..k + 1][..k] == removed[..k];
          shift := shift + if removed[k].y < y then removed[k].h else 0;
        }
        assert removed[..|removed|] == removed;
        panels := panels[i := panels[i].(y := if shift > y then 0 else y - shift)];
      }
      KeptPanelsStay(before, ids, panels);
    }
  }

  lemma KeptPanelsStay(before: seq<Panel>, ids: set<u64>, after: seq<Panel>)
    requires var removed, kept := Where(before, ids, true), Where(before, ids, false);
             |after| == |kept| && forall i :: 0 <= i < |kept| ==> after[i] == Raised(removed, kept[i])
    ensures forall p :: p in after ==> forall id :: id in ids ==> p.id != Some(id)
    ensures forall q :: q in before && (forall id :: id in ids ==> q.id != Some(id)) ==>
              exists p :: p in after && p.(y := q.y) == q
  {
    var kept := Where(before, ids, false);
    forall p | p in after ensures forall id :: id in ids ==> p.id != Some(id) {
      var i :| 0 <= i < |after| && after[i] == p;
      assert kept[i] in kept && kept[i].id == p.id;
      OnlyNamedPanelsGo(before, ids, kept[i]);
    }
    forall q | q in before && (forall id :: id in ids ==> q.id != Some(id)) ensures exists p :: p in after && p.(y := q.y) == q {
      OnlyNamedPanelsGo(before, ids, q);
      var i :| 0 <= i < |kept| && kept[i] == q;
      assert after[i] in after && after[i].(y := q.y) == q;
    }
  }

  // ---------------------------------------------------------------------------
  // Layouts
  // ---------------------------------------------------------------------------

  /** The two panels share no row. */
  predicate RowsApart(p: Panel, q: Panel) {
    p.y + p.h <= q.y || q.y + q.h <= p.y
  }

  predicate Apart(p: Panel, q: Panel) {
    RowsApart(p, q) || p.x + p.w <= q.x || q.x + q.w <= p.x
  }

  /** No two removed panels share a row. */
  ghost predicate Stacked(removed: seq<Panel>) {
    forall i, j :: 0 <= i < j < |removed| ==> RowsApart(removed[i], removed[j])
  }

  ghost predicate ClearOf(removed: seq<Panel>, panel: Panel) {
    forall r :: r in removed ==> RowsApart(r, panel)
  }

  /** The heights removed between two rows. */
  function Between(removed: seq<Panel>, from: nat, to: nat): nat {
    if removed == [] then 0
    else
      var n := |removed| - 1;
      Between(removed[..n], from, to) + if from <= removed[n].y < to then removed[n].h else 0
  }

  lemma {:induction false} ShiftsDifferByWhatIsBetween(removed: seq<Panel>, from: nat, to: nat)
    requires from <= to
    ensures Shift(removed, to) == Shift(removed, from) + Between(removed, from, to)
  {
    if removed != [] {
      ShiftsDifferByWhatIsBetween(removed[..|removed| - 1], from, to);
    }
  }

  ghost predicate Within(removed: seq<Panel>, from: nat, to: nat) {
    forall r :: r in removed ==> from <= r.y && r.y + r.h <= to
  }

  function Total(removed: seq<Panel>): nat {
    if removed == [] then 0 else Total(removed[..|removed| - 1]) + removed[|removed| - 1].h
  }

  lemma StacksGrow(removed: seq<Panel>, last: Panel)
    requires Stacked(removed)
    requires forall r :: r in removed ==> RowsApart(r, last)
    ensures Stacked(removed + [last])
  {
  }

  lemma PartsOfStacks(removed: seq<Panel>)
    requires Stacked(removed) && removed != []
    ensures var n := |removed| - 1; Stacked(removed[..n]) && forall r :: r in removed[..n] ==> RowsApart(r, removed[n])
  {
    var n := |removed| - 1;
    forall r | r in removed[..n] ensures RowsApart(r, removed[n]) {
      var i :| 0 <= i < n && removed[..n][i] == r;
      assert removed[i] == r;
    }
  }

  lemma {:induction false} FilterStaysStacked(removed: seq<Panel>, keep: Panel -> bool)
    requires Stacked(removed)
    ensures Stacked(Filter(removed, keep))
  {
    if removed != [] {
      var n := |removed| - 1;
      PartsOfStacks(removed);
      FilterStaysStacked(removed[..n], keep);
      forall r | r in Filter(removed[..n], keep) ensures RowsApart(r, removed[n]) {
        FilterKeepsExactly(removed[..n], keep, r);
      }
      StacksGrow(Filter(removed[..n], keep), removed[n]);
    }
  }

  lemma TotalAppends(removed: seq<Panel>, last: Panel, appended: bool)
    ensures Total(removed + if appended then [last] else []) == Total(removed) + if appended then last.h else 0
  {
    if appended {
      assert (removed + [last])[..|removed|] == removed;
    } else {
      assert removed + [] == removed;
    }
  }

  /** Those that end at or above `y`, or the others. */
  function EndsAbove(y: nat, above: bool): Panel -> bool {
    (panel: Panel) => (panel.y + panel.h <= y) == above
  }

  lemma {:induction false} PartsMakeTheWhole(removed: seq<Panel>, y: nat)
    ensures Total(removed) == Total(Filter(removed, EndsAbove(y, true))) + Total(Filter(removed, EndsAbove(y, false)))
  {
    if removed != [] {
      var n := |removed| - 1;
      PartsMakeTheWhole(removed[..n], y);
      TotalAppends(Filter(removed[..n], EndsAbove(y, true)), removed[n], EndsAbove(y, true)(removed[n]));
      TotalAppends(Filter(removed[..n], EndsAbove(y, false)), removed[n], EndsAbove(y, false)(removed[n]));
    }
  }

  function StartsIn(from: nat, to: nat): Panel -> bool {
    (panel: Panel) => from <= panel.y < to && panel.h > 0
  }

  lemma {:induction false} BetweenIsTheTotalInside(removed: seq<Panel>, from: nat, to: nat)
    ensures Between(removed, from, to) == Total(Filter(removed, StartsIn(from, to)))
  {
    if removed != [] {
      var n := |removed| - 1;
      BetweenIsTheTotalInside(removed[..n], from, to);
      TotalAppends(Filter(removed[..n], StartsIn(from, to)), removed[n], StartsIn(from, to)(removed[n]));
    }
  }

  /** Those above the last panel fit above it, and the others below it. */
  lemma PartsFit(rest: seq<Panel>, last: Panel, from: nat, to: nat)
    requires Stacked(rest + [last]) && Within(rest + [last], from, to)
    ensures Within(Filter(rest, EndsAbove(last.y, true)), from, last.y)
    ensures Within(Filter(rest, EndsAbove(last.y, false)), last.y + last.h, to)
  {
    var removed := rest + [last];
    forall r | r in Filter(rest, EndsAbove(last.y, true)) ensures from <= r.y && r.y + r.h <= last.y {
      FilterKeepsExactly(rest, EndsAbove(last.y, true), r);
      assert r in removed;
    }
    forall r | r in Filter(rest, EndsAbove(last.y, false)) ensures last.y + last.h <= r.y && r.y + r.h <= to {
      FilterKeepsExactly(rest, EndsAbove(last.y, false), r);
      var i :| 0 <= i < |rest| && rest[i] == r;
      assert removed[i] == r && removed[|rest|] == last && r in removed;
    }
  }

  /** Stacked panels that lie between two rows are no higher than the space there. */
  lemma {:induction false} StackFits(removed: seq<Panel>, from: nat, to: nat)
    requires Stacked(removed) && Within(removed, from, to) && from <= to
    ensures Total(removed) <= to - from
    decreases |removed|
  {
    if removed != [] {
      var n := |removed| - 1;
      var last, rest := removed[n], removed[..n];
      assert removed == rest + [last] && last in removed;
      PartsFit(rest, last, from, to);
      PartsMakeTheWhole(rest, last.y);
      FilterStaysStacked(rest, EndsAbove(last.y, true));
      FilterStaysStacked(rest, EndsAbove(last.y, false));
      FilterIsNoLonger(rest, EndsAbove(last.y, true));
      FilterIsNoLonger(rest, EndsAbove(last.y, false));
      StackFits(Filter(rest, EndsAbove(last.y, true)), from, last.y);
      StackFits(Filter(rest, EndsAbove(last.y, false)), last.y + last.h, to);
    }
  }

  /** The removed panels that start in a range of rows, and fit in a narrower one. */
  lemma InsideFits(removed: seq<Panel>, from: nat, start: nat, to: nat)
    requires Stacked(removed) && from <= start <= to
    requires forall r :: r in removed && from <= r.y < to && r.h > 0 ==> start <= r.y && r.y + r.h <= to
    ensures Between(removed, from, to) <= to - start
  {
    var inside := Filter(removed, StartsIn(from, to));
    BetweenIsTheTotalInside(removed, from, to);
    FilterStaysStacked(removed, StartsIn(from, to));
    forall r | r in inside ensures start <= r.y && r.y + r.h <= to {
      FilterKeepsExactly(removed, StartsIn(from, to), r);
    }
    StackFits(inside, start, to);
  }

  /** What was removed between a panel's end and another's start fits there. */
  lemma RemovedBetweenFits(removed: seq<Panel>, p: Panel, q: Panel)
    requires Stacked(removed) && ClearOf(removed, p) && ClearOf(removed, q)
    requires p.y + p.h <= q.y
    ensures Between(removed, p.y, q.y) <= q.y - (p.y + p.h)
  {
    forall r | r in removed && p.y <= r.y < q.y && r.h > 0 ensures p.y + p.h <= r.y && r.y + r.h <= q.y {
      assert RowsApart(r, p) && RowsApart(r, q);
    }
    InsideFits(removed, p.y, p.y + p.h, q.y);
  }

  /** What was removed above a panel fits above it, so the subtraction is exact. */
  lemma RaisingNeverSaturates(removed: seq<Panel>, panel: Panel)
    requires Stacked(removed) && ClearOf(removed, panel)
    ensures Shift(removed, panel.y) <= panel.y
    ensures Raised(removed, panel).y == panel.y - Shift(removed, panel.y)
  {
    ShiftFromTheTop(removed, panel.y);
    forall r | r in removed && 0 <= r.y < panel.y && r.h > 0 ensures r.y + r.h <= panel.y {
      assert RowsApart(r, panel);
    }
    InsideFits(removed, 0, 0, panel.y);
  }

  lemma {:induction false} ShiftFromTheTop(removed: seq<Panel>, y: nat)
    ensures Shift(removed, y) == Between(removed, 0, y)
  {
    if removed != [] {
      ShiftFromTheTop(removed[..|removed| - 1], y);
    }
  }

  /** Two survivors: each gap shrinks by exactly the heights removed inside it, the
      vertical order is kept, and panels that did not overlap still do not. */
  lemma GapsCloseAndLayoutHolds(removed: seq<Panel>, p: Panel, q: Panel)
    requires Stacked(removed) && ClearOf(removed, p) && ClearOf(removed, q)
    requires p.y <= q.y
    ensures var p', q' := Raised(removed, p), Raised(removed, q);
            && q'.y - p'.y == (q.y - p.y) - Between(removed, p.y, q.y)
            && p'.y <= q'.y
            && (RowsApart(p, q) ==> RowsApart(p', q'))
            && (Apart(p, q) ==> Apart(p', q'))
  {
    RaisingNeverSaturates(removed, p);
    RaisingNeverSaturates(removed, q);
    ShiftsDifferByWhatIsBetween(removed, p.y, q.y);
    RemovedBetweenFits(removed, p.(h := 0), q);
    if p.y + p.h <= q.y {
      RemovedBetweenFits(removed, p, q);
    }
  }

  ghost predicate Disjoint(panels: seq<Panel>) {
    forall i, j :: 0 <= i < j < |panels| ==> Apart(panels[i], panels[j])
  }

  lemma {:induction false} FilterStaysDisjoint(panels: seq<Panel>, keep: Panel -> bool)
    requires Disjoint(panels)
    ensures Disjoint(Filter(panels, keep))
  {
    if panels != [] {
      var n := |panels| - 1;
      FilterStaysDisjoint(panels[..n], keep);
      forall p | p in Filter(panels[..n], keep) ensures Apart(p, panels[n]) {
        FilterKeepsExactly(panels[..n], keep, p);
        var i :| 0 <= i < n && panels[i] == p;
      }
    }
  }

  /** On a grid without overlaps, removing panels that have their rows to themselves
      leaves a grid without overlaps. */
  lemma RemovalKeepsTheLayout(panels: seq<Panel>, ids: set<u64>)
    requires Disjoint(panels)
    requires Stacked(Where(panels, ids, true))
    requires forall p :: p in Where(panels, ids, false) ==> ClearOf(Where(panels, ids, true), p)
    ensures var removed, kept := Where(panels, ids, true), Where(panels, ids, false);
            Disjoint(seq(|kept|, i requires 0 <= i < |kept| => Raised(removed, kept[i])))
  {
    var removed, kept := Where(panels, ids, true), Where(panels, ids, false);
    FilterStaysDisjoint(panels, RemovedIs(ids, false));
    assert Disjoint(kept);
    forall i, j | 0 <= i < j < |kept| ensures Apart(Raised(removed, kept[i]), Raised(removed, kept[j])) {
      FilterKeepsExactly(panels, RemovedIs(ids, false), kept[i]);
      FilterKeepsExactly(panels, RemovedIs(ids, false), kept[j]);
      if kept[i].y <= kept[j].y {
        GapsCloseAndLayoutHolds(removed, kept[i], kept[j]);
      } else {
        GapsCloseAndLayoutHolds(removed, kept[j], kept[i]);
      }
    }
  }
}
