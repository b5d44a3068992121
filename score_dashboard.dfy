/** The end-of-case report: the reflection coach that comes first, the score colour
    bands, and the badges a score earns. */
module ScoreDashboard {
  import opened Types
  import opened Text

  /** The badge catalogue. */
  const Badges := [
    BadgeDef("b1", "Master Diagnostician", "🧠",
             "Achieve 100% Diagnostic Accuracy in 10 consecutive cases.", "Accuracy > 90%", Skill),
    BadgeDef("b2", "Empathy Expert", "❤️",
             "Consistently high empathy scores in patient interactions.", "Empathy > 95%", Skill),
    BadgeDef("b3", "Cardiology Fellow", "🫀",
             "Complete all Cardiology cases with Advanced difficulty.", "Cardio Completion", Specialty),
    BadgeDef("b4", "Triage Master", "⚡",
             "Identify critical patients within 3 turns.", "Speed < 3 turns", Skill),
    BadgeDef("b5", "Cost Saver", "💰",
             "Reach correct diagnosis with minimal testing costs.", "Efficiency > 90%", Achievement)]

  datatype ScoreColor = Emerald | Amber | Rose

  /** The colour band of a score. */
  function ColorOf(score: int): ScoreColor {
    if score >= 90 then Emerald else if score >= 70 then Amber else Rose
  }

  /** Bands from worst to best. */
  function Band(c: ScoreColor): int {
    match c
    case Rose => 0
    case Amber => 1
    case Emerald => 2
  }

  /** Emerald from 90, amber from 70, rose below; a higher score never gets a worse band. */
  lemma ColorBands(score: int, higher: int)
    requires score <= higher
    ensures ColorOf(score) == Emerald <==> score >= 90
    ensures ColorOf(score) == Amber <==> 70 <= score < 90
    ensures ColorOf(score) == Rose <==> score < 70
    ensures Band(ColorOf(score)) <= Band(ColorOf(higher))
  {
  }

  /** The award rule for one badge. */
  predicate Earns(b: BadgeDef, s: SimulationScore) {
    || (b.id == "b1" && s.accuracyScore > 90)
    || (b.id == "b2" && s.communicationScore > 95)
    || (b.id == "b5" && s.efficiencyScore > 90)
  }

  /** The badges a score earns, in catalogue order. */
  function EarnedBadges(badges: seq<BadgeDef>, s: SimulationScore): (r: seq<BadgeDef>)
    ensures IsSubsequence(r, badges)
    ensures forall i :: 0 <= i < |r| ==> r[i] in badges && Earns(r[i], s)
    ensures forall i :: 0 <= i < |badges| && Earns(badges[i], s) ==> badges[i] in r
  {
    FilterIsSubsequence(badges, (b: BadgeDef) => Earns(b, s));
    Filter(badges, (b: BadgeDef) => Earns(b, s))
  }

  /** Only b1, b2 and b5 can ever be earned, from any catalogue. */
  lemma OnlyThreeBadgesAwardable(badges: seq<BadgeDef>, s: SimulationScore, b: BadgeDef)
    requires b in EarnedBadges(badges, s)
    ensures b.id == "b1" || b.id == "b2" || b.id == "b5"
  {
  }

  /** A catalogue badge is earned exactly when its rule holds. */
  lemma {:induction false} EarnedIff(badges: seq<BadgeDef>, s: SimulationScore, k: int)
    requires 0 <= k < |badges|
    ensures badges[k] in EarnedBadges(badges, s) <==> Earns(badges[k], s)
  {
    var r := EarnedBadges(badges, s);
    if badges[k] in r {
      var i :| 0 <= i < |r| && r[i] == badges[k];
    }
  }

  /** The catalogue's ids, in order. */
  predicate CatalogueIds(c: seq<BadgeDef>) {
    && |c| == 5
    && c[0].id == "b1" && c[1].id == "b2" && c[2].id == "b3" && c[3].id == "b4" && c[4].id == "b5"
  }

  lemma BadgesIds()
    ensures CatalogueIds(Badges)
  {
  }

  /** With the catalogue: b1 iff accuracy > 90, b2 iff communication > 95, b5 iff
      efficiency > 90, and never b3 or b4. */
  lemma CatalogueAwards(catalogue: seq<BadgeDef>, s: SimulationScore)
    requires CatalogueIds(catalogue)
    ensures catalogue[0] in EarnedBadges(catalogue, s) <==> s.accuracyScore > 90
    ensures catalogue[1] in EarnedBadges(catalogue, s) <==> s.communicationScore > 95
    ensures catalogue[2] !in EarnedBadges(catalogue, s)
    ensures catalogue[3] !in EarnedBadges(catalogue, s)
    ensures catalogue[4] in EarnedBadges(catalogue, s) <==> s.efficiencyScore > 90
  {
    EarnedIff(catalogue, s, 0);
    EarnedIff(catalogue, s, 1);
    EarnedIff(catalogue, s, 2);
    EarnedIff(catalogue, s, 3);
    EarnedIff(catalogue, s, 4);
  }

  /** Sharing is enabled exactly when some badge is earned. */
  predicate ShareEnabled(catalogue: seq<BadgeDef>, s: SimulationScore) {
    |EarnedBadges(catalogue, s)| > 0
  }

  lemma ShareNeedsABadge(catalogue: seq<BadgeDef>, s: SimulationScore)
    requires CatalogueIds(catalogue)
    ensures ShareEnabled(catalogue, s) <==> s.accuracyScore > 90 || s.communicationScore > 95 || s.efficiencyScore > 90
  {
    CatalogueAwards(catalogue, s);
    var r := EarnedBadges(catalogue, s);
    if |r| > 0 {
      var k :| 0 <= k < |catalogue| && catalogue[k] == r[0];
    }
  }

  // ---- The reflection coach ----

  datatype Step = ReflectionStep | ScoreStep

  datatype CoachSender = Coach | Learner

  datatype CoachLine = CoachLine(sender: CoachSender, text: string)

  const CoachOpening := "Great work completing the case. Before we see the results, how do you think that went? What was your biggest challenge?"
  const CoachReply := "Thanks for sharing. Self-reflection is key to clinical growth. Let's look at your objective performance now."

  /** `pendingReplies` counts the coach replies scheduled by sends and not yet shown. */
  datatype Reflection = Reflection(
    step: Step, input: string, chat: seq<CoachLine>, done: bool, pendingReplies: nat)

  const InitialReflection := Reflection(ReflectionStep, "", [CoachLine(Coach, CoachOpening)], false, 0)

  /** The coach always opens the conversation, and once the reflection is done the coach
      has had the last word unless more replies are pending. */
  ghost predicate CoachValid(r: Reflection) {
    && |r.chat| >= 1 && r.chat[0] == CoachLine(Coach, CoachOpening)
    && (r.done && r.pendingReplies == 0 ==> r.chat[|r.chat| - 1].sender == Coach)
  }

  class ReflectionCoach {
    var state: Reflection

    ghost predicate Valid()
      reads this
    {
      CoachValid(state)
    }

    constructor ()
      ensures state == InitialReflection && Valid()
    {
      state := InitialReflection;
    }

    method Type(text: string)
      requires Valid()
      modifies this
      ensures state == old(state).(input := text) && Valid()
    {
      state := state.(input := text);
    }

    /** Offered only until the coach has replied. A blank reflection changes nothing;
        otherwise it is appended as the learner's line, the input is cleared and a coach
        reply is scheduled. */
    method SendReflection()
      requires Valid() && !state.done
      modifies this
      ensures IsBlank(old(state).input) ==> state == old(state)
      ensures !IsBlank(old(state).input) ==>
        state == old(state).(chat := old(state).chat + [CoachLine(Learner, old(state).input)], input := "",
                             pendingReplies := old(state).pendingReplies + 1)
      ensures state.step == old(state).step
      ensures Valid()
    {
      if !IsBlank(state.input) {
        state := state.(chat := state.chat + [CoachLine(Learner, state.input)], input := "",
                        pendingReplies := state.pendingReplies + 1);
      }
    }

    /** The scheduled reply arrives: one coach line, and the reflection is done. */
    method CoachResponds()
      requires Valid() && state.pendingReplies > 0
      modifies this
      ensures state == old(state).(chat := old(state).chat + [CoachLine(Coach, CoachReply)], done := true,
                                   pendingReplies := old(state).pendingReplies - 1)
      ensures state.step == old(state).step
      ensures Valid()
    {
      state := state.(chat := state.chat + [CoachLine(Coach, CoachReply)], done := true,
                      pendingReplies := state.pendingReplies - 1);
    }

    /** "Skip to results". */
    method Skip()
      requires Valid()
      modifies this
      ensures state == old(state).(step := ScoreStep) && Valid()
    {
      state := state.(step := ScoreStep);
    }

    /** "See Performance Report", offered once the reflection is done. */
    method SeeReport()
      requires Valid() && state.done
      modifies this
      ensures state == old(state).(step := ScoreStep) && Valid()
    {
      state := state.(step := ScoreStep);
    }
  }
}
