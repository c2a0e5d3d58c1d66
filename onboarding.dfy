/** The onboarding carousel: five slides, a current index, and Next/Back
    buttons; Next on the last slide calls `onComplete`. */
module Onboarding {

  const SlideTitles: seq<string> := [
    "Meet Your SHEild",
    "Smart Health Monitoring",
    "Instant Location Sharing",
    "Smart Deterrent System",
    "Emergency Network"
  ]

  /** The index of the last slide. */
  const LastSlide: int := |SlideTitles| - 1

  /** The index after a button press, and whether the press called `onComplete`. */
  datatype Outcome = Outcome(slide: int, completed: bool)

  /** `nextSlide`. */
  function NextSlide(slide: int): Outcome {
    if slide < |SlideTitles| - 1 then Outcome(slide + 1, false)
    else Outcome(slide, true)
  }

  /** `prevSlide`. */
  function PrevSlide(slide: int): int {
    if slide > 0 then slide - 1 else slide
  }

  /** The primary button's caption. */
  function PrimaryLabel(slide: int): (r: string)
    ensures r == "Get Started" <==> slide == LastSlide
    ensures r != "Get Started" ==> r == "Next"
  {
    if slide == |SlideTitles| - 1 then "Get Started" else "Next"
  }

  /** The visibility class of the Back button. */
  function BackVisibility(slide: int): (r: string)
    ensures r == "invisible" <==> slide == 0
    ensures r != "invisible" ==> r == "visible"
  {
    if slide == 0 then "invisible" else "visible"
  }

  datatype Button = NextButton | BackButton

  function Press(slide: int, b: Button): Outcome {
    match b
    case NextButton => NextSlide(slide)
    case BackButton => Outcome(PrevSlide(slide), false)
  }

  /** The index after the presses `bs`, and whether any of them called `onComplete`. */
  function Presses(slide: int, bs: seq<Button>): Outcome
    decreases |bs|
  {
    if bs == [] then Outcome(slide, false)
    else
      var o := Press(slide, bs[0]);
      var rest := Presses(o.slide, bs[1..]);
      Outcome(rest.slide, o.completed || rest.completed)
  }

  /** The index after `n` presses of Next, and whether any of them completed. */
  function NextPresses(slide: int, n: nat): Outcome
    decreases n
  {
    if n == 0 then Outcome(slide, false)
    else
      var o := NextSlide(slide);
      var rest := NextPresses(o.slide, n - 1);
      Outcome(rest.slide, o.completed || rest.completed)
  }

  /** The carousel component with its one state field. */
  class OnboardingSlides {
    var currentSlide: int

    ghost predicate Valid()
      reads this
    {
      0 <= currentSlide <= LastSlide
    }

    constructor ()
      ensures Valid() && currentSlide == 0
    {
      currentSlide := 0;
    }

    method Next() returns (completed: bool)
      requires Valid()
      modifies this
      ensures Valid()
      ensures Outcome(currentSlide, completed) == NextSlide(old(currentSlide))
      ensures old(currentSlide) < LastSlide ==> currentSlide == old(currentSlide) + 1 && !completed
      ensures old(currentSlide) == LastSlide ==> currentSlide == old(currentSlide) && completed
    {
      if currentSlide < |SlideTitles| - 1 {
        currentSlide := currentSlide + 1;
        completed := false;
      } else {
        completed := true;
      }
    }

    method Back()
      requires Valid()
      modifies this
      ensures Valid()
      ensures currentSlide == PrevSlide(old(currentSlide))
      ensures old(currentSlide) > 0 ==> currentSlide == old(currentSlide) - 1
      ensures old(currentSlide) == 0 ==> currentSlide == 0
    {
      if currentSlide > 0 {
        currentSlide := currentSlide - 1;
      }
    }
  }

  // ---------------------------------------------------------------------
  // Properties of the carousel

  /** Whatever the buttons pressed, the index stays within the five slides. */
  lemma {:induction false} IndexStaysInRange(slide: int, bs: seq<Button>)
    requires 0 <= slide <= LastSlide
    ensures 0 <= Presses(slide, bs).slide <= LastSlide
    decreases |bs|
  {
    if bs != [] {
      IndexStaysInRange(Press(slide, bs[0]).slide, bs[1..]);
    }
  }

  /** Only Next on the last slide completes. */
  lemma {:induction false} CompletionOnlyFromLast(slide: int, bs: seq<Button>)
    requires 0 <= slide <= LastSlide
    ensures Presses(slide, bs).completed ==>
      exists k :: 0 <= k < |bs| && bs[k] == NextButton && Presses(slide, bs[..k]).slide == LastSlide
    decreases |bs|
  {
    if bs != [] {
      var o := Press(slide, bs[0]);
      if o.completed {
        assert bs[..0] == [];
        assert bs[0] == NextButton && Presses(slide, bs[..0]).slide == LastSlide;
      } else {
        CompletionOnlyFromLast(o.slide, bs[1..]);
        if Presses(slide, bs).completed {
          var k :| 0 <= k < |bs[1..]| && bs[1..][k] == NextButton && Presses(o.slide, bs[1..][..k]).slide == LastSlide;
          assert bs[..k + 1][0] == bs[0];
          assert bs[..k + 1][1..] == bs[1..][..k];
          assert bs[k + 1] == NextButton && Presses(slide, bs[..k + 1]).slide == LastSlide;
        }
      }
    }
  }

  /** From slide `i`, Next first completes on press number `5 - i`: every
      earlier press advances by one. */
  lemma {:induction false} CompletesAfterLastSlide(slide: int, n: nat)
    requires 0 <= slide <= LastSlide
    ensures NextPresses(slide, n).slide == if slide + n <= LastSlide then slide + n else LastSlide
    ensures NextPresses(slide, n).completed <==> slide + n > LastSlide
    decreases n
  {
    if n > 0 {
      if slide < LastSlide {
        CompletesAfterLastSlide(slide + 1, n - 1);
      } else {
        AtLastSlide(n - 1);
      }
    }
  }

  /** On the last slide every Next completes and stays put. */
  lemma {:induction false} AtLastSlide(n: nat)
    ensures NextPresses(LastSlide, n).slide == LastSlide
    ensures NextPresses(LastSlide, n).completed <==> n > 0
    decreases n
  {
    if n > 0 {
      AtLastSlide(n - 1);
    }
  }

  /** From the first slide, four Next presses reach "Get Started", and the
      fifth completes. */
  lemma FirstCompletionOnFifthPress()
    ensures !NextPresses(0, 4).completed && PrimaryLabel(NextPresses(0, 4).slide) == "Get Started"
    ensures NextPresses(0, 5).completed
  {
    CompletesAfterLastSlide(0, 4);
    CompletesAfterLastSlide(0, 5);
  }
}
