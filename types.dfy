/** The records of the application's data model. Optional properties become `Option`,
    string-literal unions become datatypes, `Date` values become millisecond counts. */
module Types {

  datatype Option<+T> = None | Some(value: T)

  /** Why a call threw. */
  datatype Failure =
    | NoSession        // "No session"
    | NoActiveCase     // "No active case."
    | MissingApiKey    // "API_KEY environment variable is not set."
    | ServiceFailure   // an error raised by the generative-AI service

  /** The outcome of a call that may throw. */
  datatype Result<+T> = Ok(value: T) | Err(error: Failure)

  /** The outcome of a call that returns nothing but may throw. */
  datatype Outcome = Completed | Threw(failure: Failure)

  /** What an external (generative-AI) call produced: its text, or a thrown error. */
  datatype Reply = Answered(text: string) | Failed

  datatype Difficulty = Novice | Intermediate | Advanced

  function DifficultyName(d: Difficulty): string {
    match d
    case Novice => "Novice"
    case Intermediate => "Intermediate"
    case Advanced => "Advanced"
  }

  datatype MessageSender = User | System | Patient | AutoPilot | Mentor

  /** The string value of each sender in the enum. */
  function SenderValue(s: MessageSender): string {
    match s
    case User => "user"
    case System => "system"
    case Patient => "model"
    case AutoPilot => "autopilot"
    case Mentor => "mentor"
  }

  datatype MessageType = ChatText | LabResult | Interpretation | ReflectionText

  datatype Message = Message(
    id: string,
    text: string,
    sender: MessageSender,
    timestamp: int,
    kind: Option<MessageType>,
    imageUrl: Option<string>)

  datatype Vitals = Vitals(bp: string, hr: int, rr: int, temp: real, o2: int)

  datatype CaseCategory =
    | Cardiology | Respiratory | Gastroenterology | Neurology | Trauma | Pediatrics
    | Endocrinology | Psychiatry | InfectiousDisease | Dermatology | Rheumatology

  datatype Role = Doctor | Nurse | Paramedic

  function RoleName(r: Role): string {
    match r
    case Doctor => "Doctor"
    case Nurse => "Nurse"
    case Paramedic => "Paramedic"
  }

  datatype AssetKind = ImageAsset | DocumentAsset | LabAsset

  datatype DiagnosticAsset = DiagnosticAsset(
    id: string,
    name: string,
    kind: AssetKind,
    url: string,
    description: string,
    mimeType: string)

  datatype CaseVisibility = Public | Institution | Private

  datatype ClinicalCase = ClinicalCase(
    id: string,
    authorId: Option<string>,
    institutionId: Option<string>,
    visibility: Option<CaseVisibility>,
    patientName: string,
    age: int,
    gender: string,
    chiefComplaint: string,
    difficulty: Difficulty,
    category: CaseCategory,
    role: Role,
    description: string,
    avatarUrl: string,
    initialVitals: Vitals,
    systemInstruction: string,
    diagnosis: string,
    tags: seq<string>,
    assets: Option<seq<DiagnosticAsset>>)

  datatype PathStepType = Thought | Question | PatientAnswer | OrderTest | TestResult | DiagnosisStep

  datatype OptimalPathStep = OptimalPathStep(
    stepId: int, kind: PathStepType, content: string, reasoning: Option<string>)

  datatype TimelineKind = Good | Bad | Neutral | Critical

  datatype TimelineEvent = TimelineEvent(
    turnIndex: int, kind: TimelineKind, comment: string, originalMessage: string)

  datatype CostItem = CostItem(item: string, cost: int, isNecessary: bool, notes: string)

  datatype SimulationScore = SimulationScore(
    totalScore: int,
    diagnosisCorrect: bool,
    userDiagnosis: string,
    actualDiagnosis: string,
    accuracyScore: int,
    efficiencyScore: int,
    communicationScore: int,
    empathyFeedback: string,
    handoverScore: int,
    handoverFeedback: string,
    totalBill: int,
    billBreakdown: seq<CostItem>,
    feedbackSummary: string,
    keyTakeaway: string,
    missedCriticalSteps: seq<string>,
    timelineAnalysis: seq<TimelineEvent>,
    nextRecommendedSteps: seq<string>)

  datatype UserProfile = UserProfile(
    id: string,
    name: string,
    headline: Option<string>,
    avatar: string,
    role: Role,
    institutionId: Option<string>,
    totalScore: int,
    casesCompleted: int,
    connections: seq<string>,
    badges: seq<string>,
    communities: Option<seq<string>>)

  datatype Comment = Comment(
    id: string, userId: string, userName: string, userAvatar: string, text: string, timestamp: int)

  datatype PostVisibility = NetworkWide | CommunityOnly

  datatype PostType = Update | CasePost | ReflectionPost | Article

  /** `isLiked` is optional in the source; an absent flag reads as false, so a `bool` here. */
  datatype SocialPost = SocialPost(
    id: string,
    userId: string,
    userName: string,
    userAvatar: string,
    userRole: Role,
    caseId: Option<string>,
    caseTitle: Option<string>,
    caseDescription: Option<string>,
    caseDifficulty: Option<Difficulty>,
    caseCategory: Option<CaseCategory>,
    institutionId: Option<string>,
    visibility: PostVisibility,
    targetCommunity: Option<string>,
    topic: string,
    content: string,
    likes: int,
    comments: seq<Comment>,
    timestamp: int,
    isLiked: bool,
    kind: PostType)

  datatype BadgeCategory = Skill | Achievement | Specialty

  datatype BadgeDef = BadgeDef(
    id: string, name: string, icon: string, description: string, condition: string,
    category: BadgeCategory)

  datatype CommunityKind = HospitalGroup | SpecialtyGroup | Alumni | UniversityGroup | Organization

  datatype Access = Open | Approval

  datatype Community = Community(
    id: string, name: string, kind: CommunityKind, memberCount: int, image: string,
    access: Access, isJoined: Option<bool>)

  /** `xs.filter(p)` keeps exactly the elements satisfying `p`, in order. */
  function Filter<T>(xs: seq<T>, p: T -> bool): (r: seq<T>)
    ensures |r| <= |xs|
    ensures forall i :: 0 <= i < |r| ==> r[i] in xs && p(r[i])
    ensures forall i :: 0 <= i < |xs| && p(xs[i]) ==> xs[i] in r
    decreases |xs|
  {
    if xs == [] then []
    else if p(xs[0]) then [xs[0]] + Filter(xs[1..], p)
    else Filter(xs[1..], p)
  }

  /** `r` is obtained from `xs` by deleting elements, keeping order. */
  ghost predicate IsSubsequence<T>(r: seq<T>, xs: seq<T>)
    decreases |xs|
  {
    if xs == [] then r == []
    else (r != [] && r[0] == xs[0] && IsSubsequence(r[1..], xs[1..])) || IsSubsequence(r, xs[1..])
  }

  lemma {:induction false} FilterIsSubsequence<T>(xs: seq<T>, p: T -> bool)
    ensures IsSubsequence(Filter(xs, p), xs)
    decreases |xs|
  {
    if xs != [] {
      FilterIsSubsequence(xs[1..], p);
      if p(xs[0]) {
        var rest := Filter(xs[1..], p);
        assert ([xs[0]] + rest)[1..] == rest;
      }
    }
  }

  /** A filter that keeps everything returns the list itself. */
  lemma {:induction false} FilterKeepsAll<T>(xs: seq<T>, p: T -> bool)
    requires forall i :: 0 <= i < |xs| ==> p(xs[i])
    ensures Filter(xs, p) == xs
    decreases |xs|
  {
    if xs != [] {
      var tail := xs[1..];
      forall i | 0 <= i < |tail|
        ensures p(tail[i])
      {
        assert tail[i] == xs[i + 1];
      }
      FilterKeepsAll(tail, p);
      assert p(xs[0]);
      assert Filter(xs, p) == [xs[0]] + Filter(tail, p);
      assert [xs[0]] + tail == xs;
    }
  }

  /** Two complementary filters split the list: every element lands in exactly one. */
  lemma {:induction false} FilterComplement<T>(xs: seq<T>, p: T -> bool, q: T -> bool)
    requires forall x :: q(x) == !p(x)
    ensures |Filter(xs, p)| + |Filter(xs, q)| == |xs|
    decreases |xs|
  {
    if xs != [] {
      FilterComplement(xs[1..], p, q);
    }
  }

  /** Two tests that never hold together keep, between them, exactly what their union keeps. */
  lemma {:induction false} FilterDisjointUnion<T>(xs: seq<T>, p: T -> bool, q: T -> bool, u: T -> bool)
    requires forall x :: u(x) == (p(x) || q(x))
    requires forall x :: !(p(x) && q(x))
    ensures |Filter(xs, p)| + |Filter(xs, q)| == |Filter(xs, u)|
    decreases |xs|
  {
    if xs != [] {
      FilterDisjointUnion(xs[1..], p, q, u);
    }
  }

  /** A weaker test keeps at least as many elements. */
  lemma {:induction false} FilterCountMono<T>(xs: seq<T>, p: T -> bool, q: T -> bool)
    requires forall i :: 0 <= i < |xs| && p(xs[i]) ==> q(xs[i])
    ensures |Filter(xs, p)| <= |Filter(xs, q)|
    decreases |xs|
  {
    if xs != [] {
      assert forall i :: 1 <= i < |xs| ==> xs[i] == xs[1..][i - 1];
      FilterCountMono(xs[1..], p, q);
    }
  }

  /** `xs.filter((_, i) => i % 2 === 0)`: the elements at even positions. */
  function EvenIndexed<T>(xs: seq<T>): (r: seq<T>)
    ensures |r| == (|xs| + 1) / 2
    ensures forall i :: 0 <= i < |r| ==> r[i] == xs[2 * i]
    decreases |xs|
  {
    if |xs| <= 1 then xs
    else
      var rest := EvenIndexed(xs[2..]);
      assert forall i :: 1 <= i < |rest| + 1 ==> ([xs[0]] + rest)[i] == xs[2..][2 * (i - 1)];
      [xs[0]] + rest
  }

  /** Everyone except the current user. */
  function Others(users: seq<UserProfile>, meId: string): (r: seq<UserProfile>)
    ensures forall i :: 0 <= i < |r| ==> r[i] in users && r[i].id != meId
    ensures forall i :: 0 <= i < |users| && users[i].id != meId ==> users[i] in r
    ensures IsSubsequence(r, users)
    ensures |r| == |users| - |Filter(users, (u: UserProfile) => u.id == meId)|
  {
    FilterIsSubsequence(users, (u: UserProfile) => u.id != meId);
    FilterComplement(users, (u: UserProfile) => u.id != meId, (u: UserProfile) => u.id == meId);
    Filter(users, (u: UserProfile) => u.id != meId)
  }

  /** `Array.prototype.find`: the first element satisfying `p`. */
  function Find<T>(xs: seq<T>, p: T -> bool): (r: Option<T>)
    ensures r.None? <==> forall i :: 0 <= i < |xs| ==> !p(xs[i])
    ensures r.Some? ==> exists i :: 0 <= i < |xs| && xs[i] == r.value && p(xs[i])
                                      && forall j :: 0 <= j < i ==> !p(xs[j])
    decreases |xs|
  {
    if xs == [] then None
    else if p(xs[0]) then Some(xs[0])
    else
      var r := Find(xs[1..], p);
      assert forall i :: 1 <= i < |xs| ==> xs[i] == xs[1..][i - 1];
      r
  }
}
