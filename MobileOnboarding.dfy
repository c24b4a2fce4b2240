/**
 * The onboarding stepper (`MobileOnboarding`): four pages walked through
 * with Next and Back, left early with Skip; leaving through Next on the last
 * page or through Skip calls `onComplete`.
 */
module MobileOnboarding {

  /** Number of onboarding pages. */
  const StepCount := 4

  /** How a progress dot is drawn. */
  datatype Dot = Current | Done | Pending

  /** The progress dot of page `index` while page `step` is shown. */
  function DotAt(index: nat, step: nat): Dot {
    if index == step then Current
    else if index < step then Done
    else Pending
  }

  /** The row of progress dots, one per page. */
  function Dots(step: nat): (r: seq<Dot>)
    ensures |r| == StepCount
  {
    seq(StepCount, i requires 0 <= i => DotAt(i, step))
  }

  /** Number of entries of `dots` equal to `d`. */
  function Count(dots: seq<Dot>, d: Dot): nat {
    if dots == [] then 0 else (if dots[0] == d then 1 else 0) + Count(dots[1..], d)
  }

  /** A dot is current exactly on the page shown, done exactly before it, pending exactly after it. */
  lemma DotClassification(index: nat, step: nat)
    ensures DotAt(index, step) == Current <==> index == step
    ensures DotAt(index, step) == Done <==> index < step
    ensures DotAt(index, step) == Pending <==> index > step
  {
  }

  /** While page `step` is shown: one current dot, `step` done dots, the rest pending. */
  lemma {:induction false} DotCounts(step: nat)
    requires step < StepCount
    ensures Count(Dots(step), Current) == 1
    ensures Count(Dots(step), Done) == step
    ensures Count(Dots(step), Pending) == StepCount - 1 - step
  {
    var r := Dots(step);
    assert r == [DotAt(0, step)] + [DotAt(1, step)] + [DotAt(2, step)] + [DotAt(3, step)];
    forall d: Dot
      ensures Count(r, d) == Count([DotAt(0, step)], d) + Count([DotAt(1, step)], d)
                           + Count([DotAt(2, step)], d) + Count([DotAt(3, step)], d)
    {
      CountAppend([DotAt(0, step)] + [DotAt(1, step)] + [DotAt(2, step)], [DotAt(3, step)], d);
      CountAppend([DotAt(0, step)] + [DotAt(1, step)], [DotAt(2, step)], d);
      CountAppend([DotAt(0, step)], [DotAt(1, step)], d);
    }
    forall x: Dot, d: Dot ensures Count([x], d) == if x == d then 1 else 0 {
      assert [x][1..] == [];
    }
  }

  lemma {:induction false} CountAppend(a: seq<Dot>, b: seq<Dot>, d: Dot)
    ensures Count(a + b, d) == Count(a, d) + Count(b, d)
  {
    if a != [] {
      assert (a + b)[1..] == a[1..] + b;
      CountAppend(a[1..], b, d);
    } else {
      assert a + b == b;
    }
  }

  /** The caption of the primary button. */
  function PrimaryLabel(step: nat): string {
    if step == StepCount - 1 then "Begin Journey" else "Next"
  }

  /** The stepper as mounted. */
  class Stepper {
    var currentStep: nat

    ghost predicate Valid()
      reads this
    {
      currentStep < StepCount
    }

    constructor ()
      ensures Valid() && currentStep == 0
    {
      currentStep := 0;
    }

    /** Back is only on screen past the first page. */
    predicate BackOffered()
      reads this
    {
      currentStep > 0
    }

    /**
     * `nextStep`: below the last page, moves one page on; on the last page,
     * reports completion (`onComplete`) and stays put.
     */
    method Next() returns (completed: bool)
      requires Valid()
      modifies this
      ensures Valid()
      ensures completed <==> old(currentStep) == StepCount - 1
      ensures completed <==> PrimaryLabel(old(currentStep)) == "Begin Journey"
      ensures currentStep == if completed then old(currentStep) else old(currentStep) + 1
    {
      if currentStep < StepCount - 1 {
        currentStep := currentStep + 1;
        completed := false;
      } else {
        completed := true;
      }
    }

    /** The Back button: one page back. */
    method Back()
      requires Valid() && BackOffered()
      modifies this
      ensures Valid()
      ensures currentStep == old(currentStep) - 1
    {
      currentStep := currentStep - 1;
    }

    /** `skipOnboarding`: reports completion from any page and leaves the page as it is. */
    method Skip() returns (completed: bool)
      requires Valid()
      ensures completed
    {
      completed := true;
    }
  }
}
