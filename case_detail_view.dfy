/** The case detail page: the discussion thread, the spoiler lock over the findings, the
    visibility choice, the saved and share toggles, and the highlighted vital signs. */
module CaseDetailView {
  import opened Types
  import opened Text

  /** A discussion entry; the source keeps the author's role as display text. */
  datatype CaseComment = CaseComment(
    id: int, user: string, role: string, avatar: string, text: string, time: string, likes: int)

  const JustNow := "Just now"

  /** The two comments every thread starts with. */
  const SeedComments := [
    CaseComment(1, "Dr. Sarah Chen", "EM Resident", "https://i.pravatar.cc/150?u=u1",
                "The timeline of symptoms is critical here. Don't miss the nausea!", "2 hours ago", 12),
    CaseComment(2, "Nurse Mike", "Triage Nurse", "https://i.pravatar.cc/150?u=u2",
                "Also watch the BP. It drops faster than you expect in the second half.", "5 hours ago", 8)]

  datatype Discussion = Discussion(comments: seq<CaseComment>, input: string)

  /** The entry the current user's text becomes; its id is the current time. */
  function NewCaseComment(user: UserProfile, text: string, now: int): CaseComment {
    CaseComment(now, user.name, RoleName(user.role), user.avatar, text, JustNow, 0)
  }

  /** Posting: a blank input is ignored; otherwise the comment goes on top and the input
      is cleared. */
  function PostComment(d: Discussion, user: UserProfile, now: int): Discussion {
    if IsBlank(d.input) then d
    else Discussion([NewCaseComment(user, d.input, now)] + d.comments, "")
  }

  /** A posted comment carries the typed text unchanged, the author's name and zero likes,
      sits above every earlier comment, and leaves those in place. */
  lemma PostCommentEffect(d: Discussion, user: UserProfile, now: int)
    ensures var e := PostComment(d, user, now);
      && (IsBlank(d.input) ==> e == d)
      && (!IsBlank(d.input) ==>
            && |e.comments| == |d.comments| + 1
            && e.comments[0].text == d.input && e.comments[0].user == user.name
            && e.comments[0].likes == 0 && e.comments[0].id == now
            && e.comments[1..] == d.comments
            && e.input == "")
  {
  }

  /** The two audiences a case can be shared with. */
  datatype Audience = OrgOnly | Global

  /** A public case starts shared globally; every other case (including one without a
      visibility) starts organisation-only. */
  function InitialAudience(v: Option<CaseVisibility>): (r: Audience)
    ensures r == Global <==> v == Some(Public)
    ensures r == OrgOnly <==> v != Some(Public)
  {
    if v == Some(Public) then Global else OrgOnly
  }

  /** A heart rate above 100 is shown in red. */
  predicate HeartRateAlarming(v: Vitals) {
    v.hr > 100
  }

  /** An oxygen saturation below 94% is shown in red. */
  predicate SaturationAlarming(v: Vitals) {
    v.o2 < 94
  }

  datatype DetailState = DetailState(
    isSaved: bool, showShareMenu: bool, audience: Audience, revealSpoilers: bool, discussion: Discussion)

  class CaseDetail {
    var state: DetailState
    const scenario: ClinicalCase
    const currentUser: UserProfile
    const isCompleted: bool

    constructor (scenario: ClinicalCase, currentUser: UserProfile, isCompleted: bool)
      ensures this.scenario == scenario && this.currentUser == currentUser && this.isCompleted == isCompleted
      ensures state == DetailState(false, false, InitialAudience(scenario.visibility), false,
                                   Discussion(SeedComments, ""))
      ensures IsUnlocked() <==> isCompleted
    {
      this.scenario := scenario;
      this.currentUser := currentUser;
      this.isCompleted := isCompleted;
      state := DetailState(false, false, InitialAudience(scenario.visibility), false,
                           Discussion(SeedComments, ""));
    }

    /** The findings are readable once the case is completed or the spoilers revealed. */
    predicate IsUnlocked()
      reads this
    {
      isCompleted || state.revealSpoilers
    }

    /** "Reveal for Study": only a confirmed reveal unlocks, and nothing ever locks again. */
    method Reveal(confirmed: bool)
      modifies this
      ensures confirmed ==> state == old(state).(revealSpoilers := true) && IsUnlocked()
      ensures !confirmed ==> state == old(state)
      ensures old(IsUnlocked()) ==> IsUnlocked()
    {
      if confirmed {
        state := state.(revealSpoilers := true);
      }
    }

    method TypeComment(text: string)
      modifies this
      ensures state == old(state).(discussion := old(state).discussion.(input := text))
    {
      state := state.(discussion := state.discussion.(input := text));
    }

    method Comment(now: int)
      modifies this
      ensures state == old(state).(discussion := PostComment(old(state).discussion, currentUser, now))
    {
      state := state.(discussion := PostComment(state.discussion, currentUser, now));
    }

    method ToggleSave()
      modifies this
      ensures state == old(state).(isSaved := !old(state).isSaved)
    {
      state := state.(isSaved := !state.isSaved);
    }

    method ToggleShareMenu()
      modifies this
      ensures state == old(state).(showShareMenu := !old(state).showShareMenu)
    {
      state := state.(showShareMenu := !state.showShareMenu);
    }

    method ChooseAudience(a: Audience)
      modifies this
      ensures state == old(state).(audience := a)
    {
      state := state.(audience := a);
    }
  }
}
