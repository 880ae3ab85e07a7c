/**
 * The dashboard's chart grid (components/dashboard/dashboard-grid.tsx): four
 * slots, each empty or holding a chart, and a request dialog opened for one
 * selected slot. Each handler copies the slot list and changes one entry.
 */
module DashboardGrid {
  import opened Wrappers
  import opened ChartTypes

  /** The number of slots the grid starts with and keeps. */
  const SlotCount: nat := 4

  /** The list of four empty slots the grid starts with. */
  function EmptySlots(): (slots: seq<Option<ChartData>>)
    ensures |slots| == SlotCount && forall i :: 0 <= i < |slots| ==> slots[i].None?
  {
    [None, None, None, None]
  }

  /** A slot list with slot `slot` set to `chart` and no other slot changed. */
  function PutInSlot(slots: seq<Option<ChartData>>, slot: int, chart: Option<ChartData>): (r: seq<Option<ChartData>>)
    requires 0 <= slot < |slots|
    ensures |r| == |slots| && r[slot] == chart
    ensures forall i :: 0 <= i < |slots| && i != slot ==> r[i] == slots[i]
  {
    slots[slot := chart]
  }

  /** Emptying a slot twice is emptying it once. */
  lemma RemoveIdempotent(slots: seq<Option<ChartData>>, slot: int)
    requires 0 <= slot < |slots|
    ensures PutInSlot(PutInSlot(slots, slot, None), slot, None) == PutInSlot(slots, slot, None)
  {
  }

  class Grid {
    var charts: seq<Option<ChartData>>
    var isModalOpen: bool
    var selectedSlot: Option<int>

    /** Four slots; a selected slot is one of them; the dialog is open exactly while a slot is selected. */
    ghost predicate Valid()
      reads this
    {
      && |charts| == SlotCount
      && (selectedSlot.Some? ==> 0 <= selectedSlot.value < SlotCount)
      && (isModalOpen <==> selectedSlot.Some?)
    }

    /** The initial state: four empty slots, the dialog closed, nothing selected. */
    constructor ()
      ensures Valid()
      ensures charts == EmptySlots() && !isModalOpen && selectedSlot == None
    {
      charts := EmptySlots();
      isModalOpen := false;
      selectedSlot := None;
    }

    /** `handleAddChart(slot)`: remember the slot and open the dialog; the slots stay as they are. */
    method AddChart(slot: int)
      requires Valid() && 0 <= slot < |charts|
      modifies this
      ensures Valid()
      ensures selectedSlot == Some(slot) && isModalOpen
      ensures charts == old(charts)
    {
      selectedSlot := Some(slot);
      isModalOpen := true;
    }

    /**
     * `handleChartCreated(chartData)`: store the chart in the selected slot, if any, then
     * close the dialog and clear the selection.
     */
    method ChartCreated(chart: ChartData)
      requires Valid()
      modifies this
      ensures Valid()
      ensures !isModalOpen && selectedSlot == None
      ensures old(selectedSlot).Some? ==> charts == PutInSlot(old(charts), old(selectedSlot).value, Some(chart))
      ensures old(selectedSlot).None? ==> charts == old(charts)
    {
      if selectedSlot.Some? {
        var newCharts := charts;
        newCharts := newCharts[selectedSlot.value := Some(chart)];
        charts := newCharts;
      }
      isModalOpen := false;
      selectedSlot := None;
    }

    /** `handleRemoveChart(slot)`: empty that slot only; the dialog state is untouched. */
    method RemoveChart(slot: int)
      requires Valid() && 0 <= slot < |charts|
      modifies this
      ensures Valid()
      ensures charts == PutInSlot(old(charts), slot, None)
      ensures isModalOpen == old(isModalOpen) && selectedSlot == old(selectedSlot)
    {
      var newCharts := charts;
      newCharts := newCharts[slot := None];
      charts := newCharts;
    }

    /** The dialog's `onClose`: close it and clear the selection; the slots stay as they are. */
    method CloseModal()
      requires Valid()
      modifies this
      ensures Valid()
      ensures !isModalOpen && selectedSlot == None
      ensures charts == old(charts)
    {
      isModalOpen := false;
      selectedSlot := None;
    }
  }

  /** Choosing a slot and creating a chart fills that slot and no other. */
  method AddThenCreate(g: Grid, slot: int, chart: ChartData)
    requires g.Valid() && 0 <= slot < |g.charts|
    modifies g
    ensures g.Valid() && !g.isModalOpen && g.selectedSlot == None
    ensures g.charts[slot] == Some(chart)
    ensures forall i :: 0 <= i < SlotCount && i != slot ==> g.charts[i] == old(g.charts[i])
  {
    g.AddChart(slot);
    g.ChartCreated(chart);
  }

  /** Choosing a slot and cancelling leaves the grid as it was, with the dialog closed. */
  method AddThenClose(g: Grid, slot: int)
    requires g.Valid() && 0 <= slot < |g.charts|
    modifies g
    ensures g.Valid() && !g.isModalOpen && g.selectedSlot == None
    ensures g.charts == old(g.charts)
  {
    g.AddChart(slot);
    g.CloseModal();
  }

  /** Removing the chart of a slot twice leaves the same grid as removing it once. */
  method RemoveTwice(g: Grid, slot: int)
    requires g.Valid() && 0 <= slot < |g.charts|
    modifies g
    ensures g.Valid()
    ensures g.charts == PutInSlot(old(g.charts), slot, None)
  {
    g.RemoveChart(slot);
    g.RemoveChart(slot);
    RemoveIdempotent(old(g.charts), slot);
  }
}
