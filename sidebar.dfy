/**
 * The progress sidebar of src/app/components/layout/Sidebar.tsx: one entry per
 * step of the sequence, classified against the current index, and a click
 * handler that only ever navigates backwards.
 */
module Sidebar {
  import opened Wrappers
  import opened Catalog
  import opened Sequencer
  import opened Journey

  datatype Status = Completed | Current | Pending

  /** Lines 29-31: the entry at `i` is completed, current or pending against `current`. */
  function StatusOf(i: int, current: int): (r: Status)
    ensures r == Completed <==> i < current
    ensures r == Current <==> i == current
    ensures r == Pending <==> i > current
  {
    if i < current then Completed else if i == current then Current else Pending
  }

  datatype Entry = Entry(id: StepId, title: string, status: Status, disabled: bool)

  /** The rendered list (lines 28-74): one entry per step, in order, pending entries disabled. */
  function Entries(steps: seq<Step>, current: int): (r: seq<Entry>)
    ensures |r| == |steps|
    ensures forall i :: 0 <= i < |r| ==>
      && r[i].id == steps[i].id && r[i].title == steps[i].title
      && r[i].status == StatusOf(i, current)
      && (r[i].disabled <==> i > current)
  {
    seq(|steps|, i requires 0 <= i < |steps| => Entry(steps[i].id, steps[i].title, StatusOf(i, current), i > current))
  }

  /** In a valid in-range state exactly one entry is current, the one at the index. */
  lemma OneCurrent(steps: seq<Step>, current: int)
    requires 0 <= current < |steps|
    ensures forall i :: 0 <= i < |steps| ==> (Entries(steps, current)[i].status == Current <==> i == current)
  {
  }

  /**
   * `handleStepClick` (lines 12-17) on entry `i`: `goToStep` of that entry's id
   * when `i` does not lie ahead of the current index, nothing otherwise. The
   * id comes from the sequence, so a click never opens a branch and never
   * moves the index forward.
   */
  method HandleStepClick(p: Provider, i: int)
    requires p.Ready() && 0 <= i < |p.steps|
    modifies p`index, p`branch, p`bottomBar, p`store
    ensures i > old(p.index) || p.steps[i].id !in StepComponents() ==>
      && p.index == old(p.index) && p.branch == old(p.branch) && p.bottomBar == old(p.bottomBar)
      && p.store == old(p.store)
    ensures p.index <= old(p.index) && (old(p.InRange()) ==> p.InRange())
    ensures p.branch.None? || p.branch == old(p.branch)
    ensures i <= old(p.index) && p.steps[i].id in StepComponents() ==>
      && p.index == IndexOfId(p.steps, p.steps[i].id) <= i && p.branch.None? && p.bottomBar.None? && p.InRange()
      && p.store == old(p.store).(stepIndex := Held(p.index), branchStepId := None)
  {
    if i <= p.index {
      var id := p.steps[i].id;
      assert Contains(p.steps, id);
      p.GoToStep(id);
    }
  }
}
