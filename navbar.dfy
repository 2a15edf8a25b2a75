/**
 * The breadcrumb bar of src/app/components/layout/Navbar.tsx: the sequence
 * without its welcome step, each entry classified by its position in the
 * full sequence, with clicks allowed on completed and active entries only.
 */
module Navbar {
  import opened Wrappers
  import opened Catalog
  import opened Sequencer
  import opened Journey

  /** `journeySteps.filter(step => step.id !== "welcome")` (line 13). */
  function NavSteps(steps: seq<Step>): (r: seq<Step>)
    ensures |r| <= |steps|
    ensures forall s :: s in r <==> s in steps && s.id != Listed(Welcome)
  {
    if steps == [] then []
    else if steps[0].id == Listed(Welcome) then NavSteps(steps[1..])
    else [steps[0]] + NavSteps(steps[1..])
  }

  /** The filter keeps the order of what it keeps. */
  lemma {:induction false} NavStepsAppend(a: seq<Step>, b: seq<Step>)
    ensures NavSteps(a + b) == NavSteps(a) + NavSteps(b)
  {
    if a == [] {
      assert a + b == b;
    } else {
      assert (a + b)[1..] == a[1..] + b;
      NavStepsAppend(a[1..], b);
    }
  }

  /** A canonical journey loses exactly its first step. */
  lemma CanonicalNavSteps(t: JourneyType)
    ensures NavSteps(InitialSteps(t)) == InitialSteps(t)[1..]
  {
    var r := InitialSteps(t);
    SequenceShape(t);
    assert r == [r[0]] + r[1..];
    NavStepsAppend([r[0]], r[1..]);
    NoWelcome(r[1..]);
  }

  /** A sequence without welcome passes the filter unchanged. */
  lemma {:induction false} NoWelcome(steps: seq<Step>)
    requires forall i :: 0 <= i < |steps| ==> steps[i].id != Listed(Welcome)
    ensures NavSteps(steps) == steps
  {
    if steps != [] {
      NoWelcome(steps[1..]);
    }
  }

  datatype NavEntry = NavEntry(id: StepId, title: string, active: bool, completed: bool, disabled: bool, separator: bool)

  /** The entry for `step`, the `k`-th of `count` nav steps (lines 24-49). */
  function EntryFor(steps: seq<Step>, current: int, step: Step, k: int, count: int): NavEntry {
    var pos := IndexOfId(steps, step.id);
    NavEntry(step.id, step.title, pos == current, pos < current,
             !(pos < current) && !(pos == current), k < count - 1)
  }

  /**
   * `Navbar` (lines 8-63): nothing while the index is 0; otherwise one entry
   * per nav step, its status taken from the position of its id in the full
   * sequence, disabled unless completed or active, and followed by a
   * separator unless it is the last one.
   */
  function Bar(steps: seq<Step>, current: int): (r: seq<NavEntry>)
    ensures current == 0 ==> r == []
    ensures current != 0 ==> |r| == |NavSteps(steps)|
    ensures current != 0 ==> forall k :: 0 <= k < |r| ==>
      var pos := IndexOfId(steps, NavSteps(steps)[k].id);
      && r[k].id == NavSteps(steps)[k].id
      && (r[k].active <==> pos == current)
      && (r[k].completed <==> pos < current)
      && (r[k].disabled <==> pos > current)
      && (r[k].separator <==> k < |r| - 1)
  {
    if current == 0 then []
    else
      var nav := NavSteps(steps);
      seq(|nav|, k requires 0 <= k < |nav| => EntryFor(steps, current, nav[k], k, |nav|))
  }

  /** The number of separators drawn. */
  function Separators(entries: seq<NavEntry>): nat {
    if entries == [] then 0
    else (if entries[0].separator then 1 else 0) + Separators(entries[1..])
  }

  /** Entries whose separator is on exactly below `bound`. */
  lemma {:induction false} SeparatorsBelow(entries: seq<NavEntry>, bound: int)
    requires 0 <= bound <= |entries|
    requires forall k :: 0 <= k < |entries| ==> (entries[k].separator <==> k < bound)
    ensures Separators(entries) == bound
  {
    if entries != [] {
      var rest := entries[1..];
      if bound > 0 {
        SeparatorsBelow(rest, bound - 1);
      } else {
        SeparatorsBelow(rest, 0);
      }
    }
  }

  /** A rendered bar with `n` entries draws `n - 1` separators. */
  lemma SeparatorCount(steps: seq<Step>, current: int)
    requires current != 0 && NavSteps(steps) != []
    ensures Separators(Bar(steps, current)) == |NavSteps(steps)| - 1
  {
    var r := Bar(steps, current);
    SeparatorsBelow(r, |r| - 1);
  }

  /**
   * The click handler of nav entry `k` (lines 31-36): `goToStep` of its id when
   * it is completed or active, nothing otherwise. The id is in the sequence,
   * so the index never moves forward and no branch is opened.
   */
  method Click(p: Provider, k: int)
    requires p.Ready() && p.index != 0 && 0 <= k < |NavSteps(p.steps)|
    modifies p`index, p`branch, p`bottomBar, p`store
    ensures var pos := IndexOfId(old(p.steps), NavSteps(old(p.steps))[k].id);
      && (pos > old(p.index) || NavSteps(p.steps)[k].id !in StepComponents() ==>
            && p.index == old(p.index) && p.branch == old(p.branch) && p.bottomBar == old(p.bottomBar)
            && p.store == old(p.store))
      && (pos <= old(p.index) && NavSteps(p.steps)[k].id in StepComponents() ==>
            && p.index == pos && p.branch.None? && p.bottomBar.None? && p.InRange()
            && p.store == old(p.store).(stepIndex := Held(pos), branchStepId := None))
    ensures p.index <= old(p.index) && (old(p.InRange()) ==> p.InRange())
    ensures p.branch.None? || p.branch == old(p.branch)
  {
    var step := NavSteps(p.steps)[k];
    assert step in p.steps;
    var pos := IndexOfId(p.steps, step.id);
    var isActive := pos == p.index;
    var isCompleted := pos < p.index;
    if isCompleted || isActive {
      p.GoToStep(step.id);
    }
  }
}
