/** components/Tutorial.tsx: a walk through six fixed steps. */
module Tutorial {

  /** The number of entries of the `steps` array (Tutorial.tsx:11-45). */
  const StepCount: nat := 6

  /** What a press of a button leads to. */
  datatype Outcome = Stay | Completed

  /** The caption of the forward button (Tutorial.tsx:71). */
  function NextLabel(step: nat): (s: string)
    ensures s == "Começar Jogo" <==> step == StepCount - 1
    ensures s == "Próximo" <==> step != StepCount - 1
  {
    if step == StepCount - 1 then "Começar Jogo" else "Próximo"
  }

  /** The numbers in the header "Tutorial i/n" (Tutorial.tsx:58). */
  function Header(step: nat): (h: (nat, nat))
    requires step < StepCount
    ensures 1 <= h.0 <= h.1 && h.1 == StepCount
    ensures h.0 == step + 1
  {
    (step + 1, StepCount)
  }

  class TutorialView {
    var step: nat

    predicate Valid()
      reads this
    {
      step < StepCount
    }

    /** Tutorial.tsx:9. */
    constructor ()
      ensures Valid() && step == 0
    {
      step := 0;
    }

    /** `next` (Tutorial.tsx:49-52): advance, or on the last step complete
        and stay put. */
    method Next() returns (o: Outcome)
      requires Valid()
      modifies this
      ensures Valid()
      ensures old(step) < StepCount - 1 ==> step == old(step) + 1 && o == Stay
      ensures old(step) == StepCount - 1 ==> step == old(step) && o == Completed
    {
      if step < StepCount - 1 {
        step := step + 1;
        o := Stay;
      } else {
        o := Completed;
      }
    }

    /** "Pular" (Tutorial.tsx:67): complete from any step. */
    method Skip() returns (o: Outcome)
      requires Valid()
      ensures o == Completed
    {
      o := Completed;
    }
  }

  /** From the first step, five presses of the forward button advance and
      the sixth completes the tutorial. */
  method SixPresses() returns (outcomes: seq<Outcome>)
    ensures outcomes == [Stay, Stay, Stay, Stay, Stay, Completed]
  {
    var t := new TutorialView();
    var o1 := t.Next();
    var o2 := t.Next();
    var o3 := t.Next();
    var o4 := t.Next();
    var o5 := t.Next();
    var o6 := t.Next();
    outcomes := [o1, o2, o3, o4, o5, o6];
  }
}
