/** The expert walk-through: steps are revealed one at a time on a timer whose delay
    grows with the step's length, until the end or a skip. */
module OptimalPathViewer {
  import opened Types

  const MinReadTime := 1500
  const MillisPerChar := 15

  /** The delay before the next step: fifteen milliseconds a character, at least 1.5 s. */
  function ReadTime(step: OptimalPathStep): (r: int)
    ensures r >= MinReadTime && r >= MillisPerChar * |step.content|
    ensures r == MinReadTime || r == MillisPerChar * |step.content|
  {
    if MinReadTime < MillisPerChar * |step.content| then MillisPerChar * |step.content| else MinReadTime
  }

  /** `steps.slice(0, index + 1)`: the steps up to and including the current one, all of
      them once the index has run past the end. */
  function VisibleSteps(steps: seq<OptimalPathStep>, index: nat): (r: seq<OptimalPathStep>)
    ensures |r| == if index + 1 <= |steps| then index + 1 else |steps|
    ensures r == steps[..|r|]
    ensures index >= |steps| ==> r == steps
  {
    if index + 1 <= |steps| then steps[..index + 1] else steps
  }

  /** Revealing another step keeps what was shown and adds at most one step. */
  lemma VisibleGrows(steps: seq<OptimalPathStep>, index: nat)
    ensures var before := VisibleSteps(steps, index);
      var after := VisibleSteps(steps, index + 1);
      && before <= after && |after| <= |before| + 1
      && (index + 1 < |steps| ==> |after| == |before| + 1 && after[|before|] == steps[index + 1])
  {
  }

  class PathPlayer {
    var index: nat
    var playing: bool
    const steps: seq<OptimalPathStep>

    predicate Valid()
      reads this
    {
      index <= |steps|
    }

    constructor (steps: seq<OptimalPathStep>)
      ensures this.steps == steps && index == 0 && playing && Valid()
    {
      this.steps := steps;
      index := 0;
      playing := true;
    }

    predicate IsFinished()
      reads this
    {
      index >= |steps|
    }

    function Shown(): seq<OptimalPathStep>
      reads this
    {
      VisibleSteps(steps, index)
    }

    /** A timer is armed only while playing and not at the end; its delay is that of the
        current step. */
    function Delay(): (r: Option<int>)
      reads this
      ensures r.Some? <==> playing && index < |steps|
      ensures r.Some? ==> r.value == ReadTime(steps[index])
    {
      if playing && index < |steps| then Some(ReadTime(steps[index])) else None
    }

    /** The armed timer fires: one more step is revealed. */
    method Advance()
      requires Valid() && Delay().Some?
      modifies this
      ensures index == old(index) + 1 && playing == old(playing) && Valid()
      ensures |Shown()| >= |old(Shown())|
    {
      index := index + 1;
    }

    /** The effect after a render: once past the last step, playback stops. */
    method Settle()
      requires Valid()
      modifies this
      ensures index == old(index)
      ensures playing == (old(playing) && !IsFinished())
      ensures Valid()
    {
      if IsFinished() {
        playing := false;
      }
    }

    /** Play and pause, offered until the walk-through is finished. */
    method TogglePlay()
      requires Valid() && !IsFinished()
      modifies this
      ensures playing == !old(playing) && index == old(index) && Valid()
    {
      playing := !playing;
    }

    /** "Skip Forward": jumps past the last step, so every step is shown. */
    method Skip()
      requires Valid()
      modifies this
      ensures index == |steps| && playing == old(playing) && Valid()
      ensures IsFinished() && Shown() == steps
    {
      index := |steps|;
    }
  }
}
