/** The comparison section's rotator: three stages, advanced by a timer and
    chosen directly by the timeline dots. */
module Comparison {

  const StageCount: nat := 3

  /** The stage shown first, the one with the dashboard link. */
  const FinalStage: nat := 2

  /** The interval's updater: the next stage, wrapping after the last. */
  function Next(a: int): (r: int)
    ensures 0 <= r < StageCount
    ensures 0 <= a < StageCount - 1 ==> r == a + 1
    ensures a == StageCount - 1 ==> r == 0
  {
    (a + 1) % StageCount
  }

  /** Three ticks bring any stage back. */
  lemma ThreeTicksRestore(a: int)
    requires 0 <= a < StageCount
    ensures Next(Next(Next(a))) == a
  {
  }

  /** Ticks visit every stage: from the final stage, the first and second
      ticks show the other two. */
  lemma TicksVisitAll(a: int)
    requires 0 <= a < StageCount
    ensures {a, Next(a), Next(Next(a))} == {0, 1, 2}
  {
  }

  class Rotator {
    var active: int

    predicate Valid()
      reads this
    {
      0 <= active < StageCount
    }

    constructor()
      ensures Valid() && active == FinalStage
    {
      active := FinalStage;
    }

    /** The 20-second interval firing; the functional updater reads the
        current stage. */
    method Tick()
      requires Valid()
      modifies this
      ensures Valid() && active == Next(old(active))
    {
      active := (active + 1) % StageCount;
    }

    /** Clicking dot `i`; the dots are drawn one per stage. */
    method SelectDot(i: int)
      requires Valid() && 0 <= i < StageCount
      modifies this
      ensures Valid() && active == i
    {
      active := i;
    }

    /** The "Initialize the Future" link to the dashboard shows only on the
        final stage. */
    function ShowsDashboardLink(): (r: bool)
      reads this
      ensures r <==> active == FinalStage
    {
      active == 2
    }
  }

  /** The first tick after mounting leaves the final stage and hides the
      link, and two more bring it back. */
  method LinkReturnsAfterThreeTicks() returns (first: bool, afterOne: bool, afterThree: bool)
    ensures first && !afterOne && afterThree
  {
    var r := new Rotator();
    first := r.ShowsDashboardLink();
    r.Tick();
    afterOne := r.ShowsDashboardLink();
    r.Tick();
    r.Tick();
    afterThree := r.ShowsDashboardLink();
  }
}
