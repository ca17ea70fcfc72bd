/**
 * The onboarding overlay (components/Onboarding.tsx): four slides walked
 * through with one button, the progress dots under them, and the call to
 * `onComplete` from the last slide.
 */
module Onboarding {
  import opened Types

  /** The slide titles, in order. */
  const STEPS: seq<string> := ["Control your sugar.", "Log Sugar & Meds", "Smart Treatment Scan", "Secure Care Circle"]

  /** `steps.length - 1`. */
  const LAST := |STEPS| - 1

  /** Where one press of the button leaves the step. */
  function Next(step: int): int
  {
    if step < LAST then step + 1 else step
  }

  /** Whether one press of the button calls `onComplete`. */
  predicate Completes(step: int)
  {
    !(step < LAST)
  }

  /** The step after `presses` presses from `step`. */
  function StepAfter(step: int, presses: nat): int
  {
    if presses == 0 then step else Next(StepAfter(step, presses - 1))
  }

  /** The number of `onComplete` calls during `presses` presses from `step`. */
  function CompletionsAfter(step: int, presses: nat): nat
  {
    if presses == 0 then 0
    else CompletionsAfter(step, presses - 1) + (if Completes(StepAfter(step, presses - 1)) then 1 else 0)
  }

  /**
   * From the first slide, each of the first three presses moves one slide
   * on and none completes; every press after that stays on the last slide
   * and calls `onComplete` once.
   */
  lemma {:induction false} PressesFromStart(presses: nat)
    ensures StepAfter(0, presses) == Min(presses, LAST)
    ensures CompletionsAfter(0, presses) == if presses <= LAST then 0 else presses - LAST
  {
    if presses > 0 {
      PressesFromStart(presses - 1);
    }
  }

  /** The progress dots: dot `i` is the wide, active one exactly when `i == step`. */
  function Dots(n: nat, step: int): (r: seq<bool>)
    ensures |r| == n
    ensures forall i :: 0 <= i < n ==> r[i] == (i == step)
  {
    if n == 0 then [] else Dots(n - 1, step) + [n - 1 == step]
  }

  function CountActive(s: seq<bool>): nat
  {
    if |s| == 0 then 0 else CountActive(s[..|s| - 1]) + (if s[|s| - 1] then 1 else 0)
  }

  /** Within range there is exactly one active dot; outside it there is none. */
  lemma {:induction false} OneDotActive(n: nat, step: int)
    ensures CountActive(Dots(n, step)) == if 0 <= step < n then 1 else 0
  {
    if n > 0 {
      OneDotActive(n - 1, step);
      assert Dots(n, step)[..n - 1] == Dots(n - 1, step);
    }
  }

  /** The button's label. */
  function ButtonLabel(step: int): string
  {
    if step == LAST then "Start Monitoring" else "Next Step"
  }

  /** The label reads "Start Monitoring" on the last slide and only there, and that is the slide whose press completes. */
  lemma LabelSpec(step: int)
    requires 0 <= step <= LAST
    ensures ButtonLabel(step) == "Start Monitoring" <==> step == LAST
    ensures ButtonLabel(step) == "Start Monitoring" <==> Completes(step)
  {
  }

  class Stepper {
    var step: int
    /** How many times `onComplete` has been called. */
    var completions: nat

    ghost predicate Valid()
      reads this
    {
      0 <= step <= LAST
    }

    constructor ()
      ensures Valid() && step == 0 && completions == 0
    {
      step := 0;
      completions := 0;
    }

    /** The slide on screen (`steps[step]`) and its dots. */
    function Title(): string
      reads this
      requires Valid()
    {
      STEPS[step]
    }

    function CurrentDots(): (r: seq<bool>)
      reads this
      requires Valid()
      ensures |r| == |STEPS| && CountActive(r) == 1 && r[step]
    {
      OneDotActive(|STEPS|, step);
      Dots(|STEPS|, step)
    }

    /** `nextStep`: one slide on, or `onComplete` on the last slide with the step left as it is. */
    method NextStep()
      requires Valid()
      modifies this
      ensures Valid()
      ensures old(step) < LAST ==> step == old(step) + 1 && completions == old(completions)
      ensures old(step) == LAST ==> step == old(step) && completions == old(completions) + 1
      ensures step == Next(old(step)) && completions == old(completions) + if Completes(old(step)) then 1 else 0
    {
      if step < |STEPS| - 1 {
        step := step + 1;
      } else {
        completions := completions + 1;
      }
    }
  }
}
