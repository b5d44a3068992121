/** The application shell's simulation controller: the session flags, the append-only
    transcript, the auto-pilot turn driver, the session cost, the case-id -> score table
    and the case-library filter. Each awaited call is one atomic step whose result is a
    parameter; the service object is the `PatientSimulator` model. */
module App {
  import opened Types
  import opened Text
  import opened ScoreTable
  import opened GeminiService

  datatype ViewMode =
    | LandingPage | CommunityPage | NetworkPage | JobsPage | DashboardPage | ChatPage
    | OptimalPathPage | ScorePage | LeaderboardPage | LearningPathPage | CreateCasePage
    | ProfilePage | MessagesPage | CaseDetailPage

  /** Which part of the case library is shown. */
  datatype LibraryView = Assigned | Communities | Global | MyCreated

  /** The library filters; `None` is the 'All' choice. */
  datatype CaseFilters = CaseFilters(
    role: Option<Role>, difficulty: Option<Difficulty>, category: Option<CaseCategory>,
    view: LibraryView)

  const AllCases: CaseFilters := CaseFilters(None, None, None, Assigned)

  predicate ViewMatches(c: ClinicalCase, view: LibraryView, userId: string) {
    match view
    case Assigned => true
    case MyCreated => c.authorId == Some(userId)
    case Communities => c.visibility == Some(Institution) || c.visibility.None?
    case Global => c.visibility == Some(Public)
  }

  predicate CaseMatches(c: ClinicalCase, f: CaseFilters, userId: string): (r: bool)
    ensures f == AllCases ==> r
    ensures f.view == MyCreated && r ==> c.authorId == Some(userId)
  {
    && (f.role.None? || c.role == f.role.value)
    && (f.difficulty.None? || c.difficulty == f.difficulty.value)
    && (f.category.None? || c.category == f.category.value)
    && ViewMatches(c, f.view, userId)
  }

  /** The cases shown in the library: those passing every filter, in library order. */
  function FilteredCases(cases: seq<ClinicalCase>, f: CaseFilters, userId: string)
    : (r: seq<ClinicalCase>)
    ensures IsSubsequence(r, cases)
    ensures forall i :: 0 <= i < |r| ==> CaseMatches(r[i], f, userId)
    ensures forall i :: 0 <= i < |cases| && CaseMatches(cases[i], f, userId) ==> cases[i] in r
  {
    FilterIsSubsequence(cases, c => CaseMatches(c, f, userId));
    Filter(cases, c => CaseMatches(c, f, userId))
  }

  /** With every filter on 'All' and the Assigned view, the whole library is shown. */
  lemma NoFilterShowsAll(cases: seq<ClinicalCase>, userId: string)
    ensures FilteredCases(cases, AllCases, userId) == cases
  {
    FilterKeepsAll(cases, c => CaseMatches(c, AllCases, userId));
  }

  /** The cases that pass the role, difficulty and category filters and are not private. */
  function SharedCases(cases: seq<ClinicalCase>, f: CaseFilters, userId: string): seq<ClinicalCase> {
    Filter(cases, (c: ClinicalCase) => CaseMatches(c, f.(view := Assigned), userId) && c.visibility != Some(Private))
  }

  /** The Communities and Global views split the shareable library: every case passing the
      other filters that is not private is listed in exactly one of the two views. */
  lemma {:induction false} CommunityAndGlobalSplitShared(cases: seq<ClinicalCase>, f: CaseFilters, userId: string)
    ensures |FilteredCases(cases, f.(view := Communities), userId)| + |FilteredCases(cases, f.(view := Global), userId)|
            == |SharedCases(cases, f, userId)|
    decreases |cases|
  {
    if cases != [] {
      CommunityAndGlobalSplitShared(cases[1..], f, userId);
      var c := cases[0];
      var fc := f.(view := Communities);
      var fg := f.(view := Global);
      assert FilteredCases(cases, fc, userId) == (if CaseMatches(c, fc, userId) then [c] else [])
                                               + FilteredCases(cases[1..], fc, userId);
      assert FilteredCases(cases, fg, userId) == (if CaseMatches(c, fg, userId) then [c] else [])
                                               + FilteredCases(cases[1..], fg, userId);
      assert SharedCases(cases, f, userId)
          == (if CaseMatches(c, f.(view := Assigned), userId) && c.visibility != Some(Private) then [c] else [])
             + SharedCases(cases[1..], f, userId);
      SharedCaseInOneView(c, f, userId);
    }
  }

  /** A case is in the Communities view or the Global view, never both, exactly when it
      passes the other filters and is not private. */
  lemma SharedCaseInOneView(c: ClinicalCase, f: CaseFilters, userId: string)
    ensures !(CaseMatches(c, f.(view := Communities), userId) && CaseMatches(c, f.(view := Global), userId))
    ensures CaseMatches(c, f.(view := Communities), userId) || CaseMatches(c, f.(view := Global), userId)
            <==> CaseMatches(c, f.(view := Assigned), userId) && c.visibility != Some(Private)
  {
    var passes := CaseMatches(c, f.(view := Assigned), userId);
    assert CaseMatches(c, f.(view := Communities), userId) == (passes && ViewMatches(c, Communities, userId));
    assert CaseMatches(c, f.(view := Global), userId) == (passes && ViewMatches(c, Global, userId));
    if c.visibility == Some(Private) {
      assert !ViewMatches(c, Communities, userId);
      assert !ViewMatches(c, Global, userId);
    } else {
      assert ViewMatches(c, Global, userId) == (c.visibility == Some(Public));
      assert ViewMatches(c, Communities, userId) == (c.visibility == Some(Institution) || c.visibility.None?);
      assert c.visibility.None? || c.visibility.value == Public || c.visibility.value == Institution;
      assert ViewMatches(c, Communities, userId) || ViewMatches(c, Global, userId);
    }
  }

  /** What ordering a test adds to the session bill: 1200 when the lower-cased name
      contains "ct" or "mri", else 150. */
  function OrderCost(testName: string): (r: int)
    ensures r > 0
    ensures r == 1200 <==> Contains(ToLower(testName), "ct") || Contains(ToLower(testName), "mri")
    ensures r != 1200 ==> r == 150
  {
    if Contains(ToLower(testName), "ct") || Contains(ToLower(testName), "mri") then 1200 else 150
  }

  /** The price ignores letter case: an upper-cased or lower-cased name costs the same. */
  lemma OrderCostIgnoresCase(testName: string)
    ensures OrderCost(ToUpper(testName)) == OrderCost(testName)
    ensures OrderCost(ToLower(testName)) == OrderCost(testName)
  {
    LowerUpperLower(testName);
  }

  /** Adding words around a test name never makes it cheaper: an imaging name stays
      imaging. */
  lemma OrderCostOfLongerName(pre: string, testName: string, post: string)
    ensures OrderCost(pre + testName + post) >= OrderCost(testName)
  {
    if OrderCost(testName) == 1200 {
      var whole := pre + testName + post;
      LowerOfConcat(pre, testName, post);
      var lt := ToLower(testName);
      assert ToLower(whole) == ToLower(pre) + lt + ToLower(post);
      ContainsInfix(ToLower(pre), lt, ToLower(post));
      ContainsTrans(ToLower(whole), lt, "ct");
      ContainsTrans(ToLower(whole), lt, "mri");
    }
  }

  /** Lower-casing works character by character, so it distributes over concatenation. */
  lemma LowerOfConcat(a: string, b: string, c: string)
    ensures ToLower(a + b + c) == ToLower(a) + ToLower(b) + ToLower(c)
  {
    LowerOfAppend(a, b);
    LowerOfAppend(a + b, c);
  }

  lemma LowerOfAppend(a: string, b: string)
    ensures ToLower(a + b) == ToLower(a) + ToLower(b)
  {
    var l := ToLower(a + b);
    var r := ToLower(a) + ToLower(b);
    forall i | 0 <= i < |l| ensures l[i] == r[i] {
      if i >= |a| {
        assert (a + b)[i] == b[i - |a|];
      }
    }
  }

  /** The lower-cased "Electrolytes" holds the letters "ct" at index 3. */
  lemma ElectrolytesContainsCt(name: string)
    requires name == "Electrolytes"
    ensures Contains(ToLower(name), "ct")
  {
    var l := ToLower(name);
    assert name[3] == 'c' && name[4] == 't';
    assert l[3] == 'c' && l[4] == 't';
    assert l[3..5] == "ct";
    OccursContains(l, "ct", 3);
  }

  /** The substring rule bills a test whose name merely contains the letters "ct", such
      as "Electrolytes", at the imaging rate. */
  lemma SubstringBillsElectrolytesAsImaging(name: string)
    requires name == "Electrolytes"
    ensures OrderCost(name) == 1200
  {
    ElectrolytesContainsCt(name);
  }

  /** The same rule makes "Electrolytes" a visual test that gets a generated image. */
  lemma SubstringMakesElectrolytesVisual(name: string)
    requires name == "Electrolytes"
    ensures IsVisual(name)
  {
    ElectrolytesContainsCt(name);
    var ks := VisualKeywords;
    assert ks[4] == "ct";
    assert Contains(ToLower(name), ks[4]);
  }

  const ThinkingMessage: string := "AI Doctor is thinking..."
  const TypingMessage: string := "Patient typing..."
  const InitializingMessage: string := "Initializing patient simulation..."
  const ScoringMessage: string := "Expert AI is reasoning about your performance..."
  const ConnectionLost: string := "Connection lost."

  // The fixed pieces of the entries the controller writes.
  const OrderingPrefix: string := "Ordering "
  const Ellipsis: string := "..."
  const TestPrefix: string := "Diagnostic Test: "
  const ResultSeparator: string := "\nResult: "
  const DiagnosisHeading: string := "**FINAL DIAGNOSIS:** "
  const ReasoningHeading: string := "\n\n**REASONING:** "
  const DiagnosisIdPrefix: string := "ai-doc-diag-"
  const OpeningIdPrefix: string := "start-"
  const LabelOpen: string := "["
  const LabelClose: string := "]: "
  const LineBreak: string := "\n"

  /** A plain chat message (no type tag, no image). */
  function ChatMessage(id: string, text: string, sender: MessageSender, now: int): Message {
    Message(id, text, sender, now, None, None)
  }

  /** The entry that follows a sent message: the patient's reply, or a system notice
      when the chat is missing or the call fails. */
  function ReplyMessage(chat: Option<Chat>, reply: Reply, now: nat): (m: Message)
    ensures m.sender == Patient <==> chat.Some? && reply.Answered?
    ensures m.sender != Patient ==> m.sender == System && m.text == ConnectionLost
    ensures m.sender == Patient ==> m.text == OrElse(reply.text, EmptyReplyFallback) && m.text != []
  {
    if chat.Some? && reply.Answered? then
      ChatMessage(NatToString(now + 1), OrElse(reply.text, EmptyReplyFallback), Patient, now)
    else ChatMessage(NatToString(now), ConnectionLost, System, now)
  }

  /** The entry showing a returned lab report, tagged as a lab result. */
  function LabResultMessage(report: LabReport, now: nat): Message {
    Message(NatToString(now + 1), report.text, System, now, Some(LabResult), report.imageUrl)
  }

  /** The entries a returned or failed lab call adds. */
  function LabEntries(lab: Result<LabReport>, now: nat): (ms: seq<Message>)
    ensures |ms| == if lab.Ok? then 1 else 0
  {
    if lab.Ok? then [LabResultMessage(lab.value, now)] else []
  }

  /** The entries a test order adds: the order line, then the lab result if the lab call
      returned. */
  function OrderMessages(testName: string, sender: MessageSender, lab: Result<LabReport>, now: nat)
    : (ms: seq<Message>)
    ensures |ms| == if lab.Ok? then 2 else 1
    ensures ms[0] == OrderLine(testName, sender, now) && ms[0].sender == sender
    ensures lab.Ok? ==> ms[1].sender == System && ms[1].kind == Some(LabResult)
                        && ms[1].text == lab.value.text && ms[1].imageUrl == lab.value.imageUrl
  {
    [OrderLine(testName, sender, now)] + LabEntries(lab, now)
  }

  /** The replies of the lab service for one order: the report, the generated image and
      the forwarding of the result to the chat. */
  datatype LabCall = LabCall(report: Reply, image: Option<string>, submit: Reply)

  /** Whether the order escapes with an error: the lab call threw, or forwarding its result
      to the open chat failed. */
  function OrderOutcome(lab: Result<LabReport>, chat: Option<Chat>, submit: Reply): (o: Outcome)
    ensures o.Threw? <==> lab.Err? || (chat.Some? && submit.Failed?)
    ensures lab.Err? ==> o == Threw(lab.error)
  {
    if lab.Err? then Threw(lab.error)
    else if chat.Some? && submit.Failed? then Threw(ServiceFailure)
    else Completed
  }

  /** The line recording an order. */
  function OrderLine(testName: string, sender: MessageSender, now: nat): Message {
    ChatMessage(NatToString(now), OrderingPrefix + testName + Ellipsis, sender, now)
  }

  /** The auto-pilot's closing entry. */
  function DiagnosisMessage(a: AutoPilotAction, now: nat): Message {
    ChatMessage(DiagnosisIdPrefix + NatToString(now), DiagnosisText(a), AutoPilot, now)
  }

  function DiagnosisText(a: AutoPilotAction): string {
    DiagnosisHeading + a.content + ReasoningHeading + a.reasoning
  }

  // ----- The session history shown to the auto-pilot -----

  /** The label the history gives a sender, as written: the sender's value upper-cased. */
  function HistoryLabelAsWritten(s: MessageSender): string {
    ToUpper(SenderValue(s))
  }

  function AutoPilotHistoryAsWritten(messages: seq<Message>): string {
    Join(seq(|messages|, i requires 0 <= i < |messages| =>
           LabelOpen + HistoryLabelAsWritten(messages[i].sender) + LabelClose + messages[i].text), LineBreak)
  }

  /** The labels the auto-pilot prompt's transcript protocol defines. */
  const ProtocolLabels: seq<string> := ["AUTOPILOT", "PATIENT", "SYSTEM"]

  /** As written, a patient line is labelled "MODEL", a label the protocol does not
      define. */
  lemma PatientLabelAsWritten()
    ensures HistoryLabelAsWritten(Patient) == "MODEL" && "MODEL" !in ProtocolLabels
  {
    UpperCasedLabels();
    assert HistoryLabelAsWritten(Patient) == SenderLabel(Patient);
  }

  /** So the history of a session holding one patient line has a "[MODEL]" line and no
      "[PATIENT]" line. */
  lemma HistoryAsWrittenMislabelsPatient(m: Message)
    requires m.sender == Patient
    ensures AutoPilotHistoryAsWritten([m]) == "[MODEL]: " + m.text
  {
    PatientLabelAsWritten();
    var ms := [m];
    var lines := seq(|ms|, i requires 0 <= i < |ms| =>
                   "[" + HistoryLabelAsWritten(ms[i].sender) + "]: " + ms[i].text);
    assert lines == [LabelOpen + "MODEL" + LabelClose + m.text];
  }

  /** The protocol's label for a sender: the patient is "PATIENT", every other sender its
      value upper-cased. */
  function ProtocolLabel(s: MessageSender): (r: string)
    ensures s == AutoPilot ==> r == "AUTOPILOT"
    ensures s == Patient ==> r == "PATIENT"
    ensures s == System ==> r == "SYSTEM"
    ensures s != Patient ==> r == HistoryLabelAsWritten(s)
  {
    UpperCasedLabels();
    AutoPilotUpperCased(SenderValue(AutoPilot));
    if s == Patient then "PATIENT" else ToUpper(SenderValue(s))
  }

  lemma AutoPilotUpperCased(v: string)
    requires v == "autopilot"
    ensures ToUpper(v) == "AUTOPILOT"
  {
    var u := ToUpper(v);
    assert v[0] == 'a' && v[1] == 'u' && v[2] == 't' && v[3] == 'o' && v[4] == 'p';
    assert v[5] == 'i' && v[6] == 'l' && v[7] == 'o' && v[8] == 't';
    assert |u| == 9 && u[0] == 'A' && u[1] == 'U' && u[2] == 'T' && u[3] == 'O' && u[4] == 'P';
    assert u[5] == 'I' && u[6] == 'L' && u[7] == 'O' && u[8] == 'T';
  }

  function HistoryLine(m: Message): string {
    LabelOpen + ProtocolLabel(m.sender) + LabelClose + m.text
  }

  /** The session history handed to the auto-pilot: one labelled line per message. */
  function AutoPilotHistory(messages: seq<Message>): string {
    Join(seq(|messages|, i requires 0 <= i < |messages| => HistoryLine(messages[i])), LineBreak)
  }

  /** Every auto-pilot, patient or system entry appears in the history under one of the
      protocol's labels. */
  lemma HistoryFollowsProtocol(messages: seq<Message>, i: int)
    requires 0 <= i < |messages|
    requires messages[i].sender in {AutoPilot, Patient, System}
    ensures ProtocolLabel(messages[i].sender) in ProtocolLabels
    ensures Contains(AutoPilotHistory(messages), HistoryLine(messages[i]))
  {
    var lines := seq(|messages|, j requires 0 <= j < |messages| => HistoryLine(messages[j]));
    JoinContains(lines, LineBreak, i);
  }

  /** The history the controller sends differs from the protocol only in the patient's
      label: every other sender gets its protocol label, and every message appears in it
      under its upper-cased sender value. */
  lemma HistoryAsWrittenHasEveryMessage(messages: seq<Message>, i: int)
    requires 0 <= i < |messages|
    ensures Contains(AutoPilotHistoryAsWritten(messages),
                     LabelOpen + HistoryLabelAsWritten(messages[i].sender) + LabelClose + messages[i].text)
    ensures HistoryLabelAsWritten(messages[i].sender) == ProtocolLabel(messages[i].sender) <==> messages[i].sender != Patient
  {
    var lines := seq(|messages|, j requires 0 <= j < |messages| =>
                   LabelOpen + HistoryLabelAsWritten(messages[j].sender) + LabelClose + messages[j].text);
    JoinContains(lines, LineBreak, i);
    PatientLabelAsWritten();
    assert ProtocolLabel(Patient) == "PATIENT";
  }

  // ----- The controller's state -----

  /** The navigation and library part of the controller's state. */
  datatype Screen = Screen(
    viewMode: ViewMode,
    caseList: seq<ClinicalCase>,
    selectedCaseDetail: Option<ClinicalCase>,
    showSetupModal: bool,
    pendingCase: Option<ClinicalCase>,
    filters: CaseFilters)

  /** The running simulation: its case, transcript, flags, bill and result. */
  datatype Session = Session(
    activeCase: Option<ClinicalCase>,
    customProtocolFile: Option<ProtocolFile>,
    messages: seq<Message>,
    loadingMessage: Option<string>,
    isLabProcessing: bool,
    isSessionActive: bool,
    currentSessionCost: int,
    optimalPath: seq<OptimalPathStep>,
    scoreData: Option<SimulationScore>,
    isAutoPilotRunning: bool,
    showHandover: bool,
    handoverNote: string)

  /** The learner's record: the score table and the profile it feeds. */
  datatype Progress = Progress(completedCases: Table, currentUser: UserProfile)

  datatype AppState = AppState(screen: Screen, session: Session, progress: Progress)

  /** The score table has one entry per case and the bill is never negative. */
  ghost predicate ValidState(s: AppState) {
    UniqueKeys(s.progress.completedCases) && s.session.currentSessionCost >= 0
  }

  /** What the browser's storage holds under the scores key. */
  datatype SavedScores = NothingSaved | Unreadable | Saved(table: Table)

  const InitialUser: UserProfile := UserProfile(
    "u1", "Dr. Sarah Chen", Some("Chief Resident, Internal Medicine"),
    "https://images.unsplash.com/photo-1559839734-2b71ea197ec2?auto=format&fit=crop&w=300&q=80",
    Doctor, None, 12500, 140, ["u2", "u3"], ["Cardiology Expert"], Some(["comm-1", "comm-2"]))

  const IdleSession: Session :=
    Session(None, None, [], None, false, false, 0, [], None, false, false, [])

  function InitialState(scenarios: seq<ClinicalCase>): AppState {
    AppState(Screen(LandingPage, scenarios, None, false, None, AllCases), IdleSession,
             Progress([], InitialUser))
  }

  // ----- The transitions -----

  /** The user's total and count recomputed from a score table. */
  function WithScores(u: UserProfile, t: Table): (r: UserProfile)
    ensures r.totalScore == Sum(Values(t)) && r.casesCompleted == |t|
  {
    u.(totalScore := Sum(Values(t)), casesCompleted := |Values(t)|)
  }

  /** Restoring saved scores. */
  function LoadStep(p: Progress, saved: SavedScores): Progress {
    if saved.Saved? then Progress(saved.table, WithScores(p.currentUser, saved.table)) else p
  }

  /** The guard of the auto-pilot effect: auto-pilot on, session active, nothing loading
      (an empty loading text counts as nothing), no lab pending, and the transcript
      empty or ending with a patient or system entry. */
  predicate AutoPilotShouldRespond(ss: Session): (r: bool)
    ensures ss.loadingMessage.Some? && ss.loadingMessage.value != [] ==> !r
    ensures r && ss.messages != [] ==> ss.messages[|ss.messages| - 1].sender != User
                                       && ss.messages[|ss.messages| - 1].sender != AutoPilot
  {
    && ss.isAutoPilotRunning && ss.isSessionActive
    && (ss.loadingMessage.None? || ss.loadingMessage.value == [])
    && !ss.isLabProcessing
    && (ss.messages == [] || ss.messages[|ss.messages| - 1].sender == Patient
        || ss.messages[|ss.messages| - 1].sender == System)
  }

  /** Sending a line and receiving the reply. */
  function SendStep(ss: Session, text: string, sender: MessageSender, chat: Option<Chat>,
                    reply: Reply, now: nat): (r: Session)
    ensures r == ss.(messages := r.messages, loadingMessage := None)
    ensures |r.messages| == |ss.messages| + 2 && r.messages[..|ss.messages|] == ss.messages
  {
    ss.(messages := ss.messages + [ChatMessage(NatToString(now), text, sender, now),
                                   ReplyMessage(chat, reply, now)],
        loadingMessage := None)
  }

  /** Ordering a test whose lab call produced `lab`. */
  function OrderStep(ss: Session, testName: string, sender: MessageSender,
                     lab: Result<LabReport>, now: nat): (r: Session)
    ensures r == ss.(messages := r.messages, currentSessionCost := r.currentSessionCost, isLabProcessing := false)
    ensures r.currentSessionCost > ss.currentSessionCost
    ensures |r.messages| > |ss.messages| && r.messages[..|ss.messages|] == ss.messages
  {
    ss.(messages := ss.messages + OrderMessages(testName, sender, lab, now),
        currentSessionCost := ss.currentSessionCost + OrderCost(testName),
        isLabProcessing := false)
  }

  /** The move the auto-pilot makes on session `ss`, asked on the history as the controller
      writes it (patient lines labelled "MODEL"): only a missing client escapes. */
  function AutoPilotMove(ss: Session, apiKeySet: bool, model: string -> Reply,
                         parse: string -> Option<AutoPilotAction>): (r: Result<AutoPilotAction>)
    ensures r.Err? <==> !apiKeySet
    ensures r.Ok? ==> r.value == ActionFrom(model(AutoPilotHistoryAsWritten(ss.messages)), parse)
  {
    if apiKeySet then Ok(ActionFrom(model(AutoPilotHistoryAsWritten(ss.messages)), parse))
    else Err(MissingApiKey)
  }

  /** The test a move orders; only read when the move is an order. */
  function OrderedTest(move: Result<AutoPilotAction>): string {
    if move.Ok? then move.value.content else []
  }

  /** The rest of an auto-pilot turn once its move is known; `lab` is what the lab call
      produced for the ordered test and `submit` what forwarding it to the chat did. */
  function TurnStep(ss: Session, move: Result<AutoPilotAction>, chat: Option<Chat>,
                    lab: Result<LabReport>, submit: Reply, patientReply: Reply, now: nat): (r: Session)
    ensures r.loadingMessage.None? && r.activeCase == ss.activeCase
    ensures r.isAutoPilotRunning ==> ss.isAutoPilotRunning
    ensures r.isSessionActive ==> ss.isSessionActive
    ensures move.Err? ==> !r.isAutoPilotRunning && r.messages == ss.messages
  {
    match move
    case Err(_) => ss.(isAutoPilotRunning := false, loadingMessage := None)
    case Ok(a) =>
      match a.kind
      case MessageAction => SendStep(ss, a.content, AutoPilot, chat, patientReply, now)
      case OrderAction =>
        var t := OrderStep(ss, a.content, AutoPilot, lab, now);
        t.(isAutoPilotRunning := t.isAutoPilotRunning && OrderOutcome(lab, chat, submit).Completed?,
           loadingMessage := None)
      case DiagnosisAction =>
        ss.(messages := ss.messages + [DiagnosisMessage(a, now)],
            isAutoPilotRunning := false, isSessionActive := false, loadingMessage := None)
      case OtherAction => ss.(loadingMessage := None)
  }

  /** The patient's opening entry. */
  function OpeningMessage(text: string, now: nat): Message {
    ChatMessage(OpeningIdPrefix + NatToString(now), text, Patient, now)
  }

  /** The resets done before the service is asked to start case `c`. */
  function ResetStep(s: AppState, c: ClinicalCase, protocol: Option<ProtocolFile>): AppState {
    s.(screen := s.screen.(showSetupModal := false, viewMode := ChatPage),
       session := Session(Some(c), protocol, [], Some(InitializingMessage), s.session.isLabProcessing,
                          true, 0, [], None, false, false, []))
  }

  /** Starting case `c`; `started` tells whether the service could open the session. */
  function StartStep(s: AppState, c: ClinicalCase, protocol: Option<ProtocolFile>, started: bool,
                     opening: Reply, now: nat): (r: AppState)
    ensures r.session.activeCase == Some(c) && r.session.isSessionActive && !r.session.isAutoPilotRunning
    ensures r.session.currentSessionCost == 0 && r.session.loadingMessage.None?
    ensures r.progress == s.progress
  {
    var r := ResetStep(s, c, protocol);
    if started then
      r.(session := r.session.(messages := [OpeningMessage(OpeningLine(opening), now)], loadingMessage := None))
    else
      r.(screen := r.screen.(viewMode := DashboardPage), session := r.session.(loadingMessage := None))
  }

  /** Closing the handover form while the evaluation runs. */
  function CloseStep(ss: Session): Session {
    ss.(showHandover := false, isSessionActive := false, loadingMessage := Some(ScoringMessage))
  }

  /** Showing `score` and, with an active case, recording it in the table and the user's
      totals. */
  function ScoreStep(s: AppState, score: SimulationScore): AppState {
    var shown := s.(screen := s.screen.(viewMode := ScorePage),
                    session := s.session.(scoreData := Some(score)));
    if s.session.activeCase.None? then shown
    else
      var t := Put(s.progress.completedCases, s.session.activeCase.value.id, score.totalScore);
      shown.(progress := Progress(t, WithScores(s.progress.currentUser, t)))
  }

  /** Grading the session with outcome `res`. */
  function FinishStep(s: AppState, res: Result<SimulationScore>): (r: AppState)
    ensures !r.session.isSessionActive && r.session.loadingMessage.None?
    ensures res.Err? ==> r.progress == s.progress
    ensures res.Ok? ==> r.session.scoreData == Some(res.value)
  {
    var closed := s.(session := CloseStep(s.session));
    var graded := if res.Ok? then ScoreStep(closed, res.value) else closed;
    graded.(session := graded.session.(loadingMessage := None))
  }

  // ----- Properties of the transitions -----

  /** Loading saved scores sets the table and derives the total and the count from it. */
  lemma LoadStepAggregates(p: Progress, saved: SavedScores)
    requires saved.Saved? ==> UniqueKeys(saved.table)
    ensures saved.Saved? ==>
              && LoadStep(p, saved).completedCases == saved.table
              && LoadStep(p, saved).currentUser.totalScore == Sum(Values(saved.table))
              && LoadStep(p, saved).currentUser.casesCompleted == |saved.table|
    ensures !saved.Saved? ==> LoadStep(p, saved) == p
    ensures UniqueKeys(p.completedCases) ==> UniqueKeys(LoadStep(p, saved).completedCases)
  {
  }

  /** Once a turn is under way (the loading text set), the guard is false, so no second
      turn starts. */
  lemma GuardBlocksWhileThinking(ss: Session)
    ensures !AutoPilotShouldRespond(ss.(loadingMessage := Some(ThinkingMessage)))
  {
  }

  /** Sending grows the transcript by exactly two entries, the sender's line first, and
      leaves the earlier entries alone. */
  lemma SendStepAppendsTwo(ss: Session, text: string, sender: MessageSender, chat: Option<Chat>,
                           reply: Reply, now: nat)
    ensures var t := SendStep(ss, text, sender, chat, reply, now);
      && |t.messages| == |ss.messages| + 2
      && t.messages[..|ss.messages|] == ss.messages
      && t.messages[|ss.messages|].sender == sender && t.messages[|ss.messages|].text == text
      && (t.messages[|ss.messages| + 1].sender == Patient <==> chat.Some? && reply.Answered?)
      && (t.messages[|ss.messages| + 1].sender != Patient ==>
            t.messages[|ss.messages| + 1] == ChatMessage(NatToString(now), ConnectionLost, System, now))
      && t.loadingMessage == None
  {
  }

  /** An order bills 1200 or 150, never lowers the bill, records the order line from
      `sender` and always clears the lab flag. */
  lemma OrderStepBills(ss: Session, testName: string, sender: MessageSender,
                       lab: Result<LabReport>, now: nat)
    ensures var t := OrderStep(ss, testName, sender, lab, now);
      && t.currentSessionCost - ss.currentSessionCost in {150, 1200}
      && t.currentSessionCost > ss.currentSessionCost
      && t.messages[..|ss.messages|] == ss.messages
      && t.messages[|ss.messages|].sender == sender
      && (|t.messages| == |ss.messages| + 2 <==> lab.Ok?)
      && !t.isLabProcessing
  {
  }

  /** What every turn keeps: the loading text cleared, earlier entries kept, the bill
      never lowered and the auto-pilot never switched on. */
  predicate TurnFrame(ss: Session, t: Session) {
    && t.loadingMessage == None
    && ss.messages <= t.messages
    && t.currentSessionCost >= ss.currentSessionCost
    && (t.isAutoPilotRunning ==> ss.isAutoPilotRunning)
  }

  /** The frame, one kind of move at a time. */
  lemma MessageKeepsFrame(ss: Session, a: AutoPilotAction, chat: Option<Chat>,
                          lab: Result<LabReport>, submit: Reply, patientReply: Reply, now: nat)
    requires a.kind == MessageAction
    ensures TurnFrame(ss, TurnStep(ss, Ok(a), chat, lab, submit, patientReply, now))
  {
  }

  lemma OrderKeepsFrame(ss: Session, a: AutoPilotAction, chat: Option<Chat>,
                        lab: Result<LabReport>, submit: Reply, patientReply: Reply, now: nat)
    requires a.kind == OrderAction
    ensures TurnFrame(ss, TurnStep(ss, Ok(a), chat, lab, submit, patientReply, now))
  {
  }

  lemma DiagnosisKeepsFrame(ss: Session, a: AutoPilotAction, chat: Option<Chat>,
                            lab: Result<LabReport>, submit: Reply, patientReply: Reply, now: nat)
    requires a.kind == DiagnosisAction
    ensures TurnFrame(ss, TurnStep(ss, Ok(a), chat, lab, submit, patientReply, now))
  {
  }

  /** Every turn keeps the frame, whatever the move. */
  lemma TurnStepFrame(ss: Session, move: Result<AutoPilotAction>, chat: Option<Chat>,
                      lab: Result<LabReport>, submit: Reply, patientReply: Reply, now: nat)
    ensures TurnFrame(ss, TurnStep(ss, move, chat, lab, submit, patientReply, now))
  {
    if move.Ok? {
      var a := move.value;
      if a.kind == MessageAction {
        MessageKeepsFrame(ss, a, chat, lab, submit, patientReply, now);
      } else if a.kind == OrderAction {
        OrderKeepsFrame(ss, a, chat, lab, submit, patientReply, now);
      } else if a.kind == DiagnosisAction {
        DiagnosisKeepsFrame(ss, a, chat, lab, submit, patientReply, now);
      }
    }
  }

  /** A diagnosis appends exactly one auto-pilot entry and ends both the auto-pilot and
      the session. */
  lemma TurnDiagnosisEndsSession(ss: Session, a: AutoPilotAction, chat: Option<Chat>,
                                 lab: Result<LabReport>, submit: Reply, patientReply: Reply, now: nat)
    requires a.kind == DiagnosisAction
    ensures var t := TurnStep(ss, Ok(a), chat, lab, submit, patientReply, now);
      && |t.messages| == |ss.messages| + 1
      && t.messages[|ss.messages|].sender == AutoPilot
      && t.messages[|ss.messages|].text == DiagnosisText(a)
      && !t.isAutoPilotRunning && !t.isSessionActive
  {
  }

  /** An error escaping the move switches the auto-pilot off without ending the session
      and without touching the transcript. */
  lemma TurnErrorStopsAutoPilot(ss: Session, e: Failure, chat: Option<Chat>,
                                lab: Result<LabReport>, submit: Reply, patientReply: Reply, now: nat)
    ensures var t := TurnStep(ss, Err(e), chat, lab, submit, patientReply, now);
      !t.isAutoPilotRunning && t.isSessionActive == ss.isSessionActive && t.messages == ss.messages
  {
  }

  /** After an order the auto-pilot keeps running exactly when it was running, the lab
      call returned and forwarding the result to an open chat did not fail; the session
      stays as it was. */
  lemma TurnOrderFailureStopsAutoPilot(ss: Session, a: AutoPilotAction, chat: Option<Chat>,
                                       lab: Result<LabReport>, submit: Reply, patientReply: Reply,
                                       now: nat)
    requires a.kind == OrderAction
    ensures var t := TurnStep(ss, Ok(a), chat, lab, submit, patientReply, now);
      && (t.isAutoPilotRunning <==> ss.isAutoPilotRunning && lab.Ok? && !(chat.Some? && submit.Failed?))
      && t.isSessionActive == ss.isSessionActive
  {
  }

  /** Starting clears the transcript, bill, score and auto-pilot and activates the
      session; on success the transcript is exactly the patient's opening line, on failure
      it is empty and the dashboard is shown. The score table is untouched. */
  lemma StartStepResets(s: AppState, c: ClinicalCase, protocol: Option<ProtocolFile>,
                        started: bool, opening: Reply, now: nat)
    requires ValidState(s)
    ensures var t := StartStep(s, c, protocol, started, opening, now);
      && ValidState(t) && t.progress == s.progress
      && t.session.isSessionActive && !t.session.isAutoPilotRunning
      && t.session.currentSessionCost == 0 && t.session.scoreData.None?
      && t.session.activeCase == Some(c) && t.session.loadingMessage == None
      && (started ==> |t.session.messages| == 1 && t.session.messages[0].sender == Patient
                      && t.session.messages[0].text == OpeningLine(opening)
                      && t.screen.viewMode == ChatPage)
      && (!started ==> t.session.messages == [] && t.screen.viewMode == DashboardPage)
  {
  }

  /** After grading with an active case, the table maps the case to the new score,
      overwriting any earlier one, keeps every other entry, and the user's total and count
      are the sum and size of the table. */
  lemma {:induction false} FinishStepRecordsScore(s: AppState, score: SimulationScore, other: string)
    requires ValidState(s) && s.session.activeCase.Some?
    ensures var t := FinishStep(s, Ok(score));
      var id := s.session.activeCase.value.id;
      var old_t := s.progress.completedCases;
      var new_t := t.progress.completedCases;
      && ValidState(t)
      && Get(new_t, id) == Some(score.totalScore)
      && (other != id ==> Get(new_t, other) == Get(old_t, other))
      && t.progress.currentUser.totalScore == Sum(Values(new_t))
      && t.progress.currentUser.totalScore
           == Sum(Values(old_t)) - (if HasKey(old_t, id) then Get(old_t, id).value else 0) + score.totalScore
      && t.progress.currentUser.casesCompleted == |new_t|
      && t.progress.currentUser.casesCompleted == |old_t| + (if HasKey(old_t, id) then 0 else 1)
      && t.session.scoreData == Some(score) && !t.session.isSessionActive
      && t.session.loadingMessage == None
  {
    var id := s.session.activeCase.value.id;
    PutGet(s.progress.completedCases, id, score.totalScore, other);
    PutShape(s.progress.completedCases, id, score.totalScore);
    SumPut(s.progress.completedCases, id, score.totalScore);
  }

  /** After a successful grading the case page counts the graded case as completed
      exactly when its new score is not 0, whatever was stored for it before. */
  lemma FinishStepCompletes(s: AppState, score: SimulationScore)
    requires s.session.activeCase.Some?
    ensures TruthyScore(FinishStep(s, Ok(score)).progress.completedCases, s.session.activeCase.value.id)
      <==> score.totalScore != 0
  {
    PutGet(s.progress.completedCases, s.session.activeCase.value.id, score.totalScore, "");
  }

  /** A failed grading closes the session but leaves the table, the user and the shown
      score alone. */
  lemma FinishStepOnError(s: AppState, e: Failure)
    ensures var t := FinishStep(s, Err(e));
      && t.progress == s.progress && t.session.scoreData == s.session.scoreData
      && !t.session.isSessionActive && !t.session.showHandover && t.session.loadingMessage == None
  {
  }

  // ----- The controller -----

  class Simulation {
    var screen: Screen
    var session: Session
    var progress: Progress
    const simulator: PatientSimulator

    function State(): AppState
      reads this
    {
      AppState(screen, session, progress)
    }

    ghost predicate Valid()
      reads this
    {
      ValidState(State())
    }

    constructor (scenarios: seq<ClinicalCase>, simulator: PatientSimulator)
      ensures Valid() && this.simulator == simulator
      ensures State() == InitialState(scenarios)
    {
      screen := Screen(LandingPage, scenarios, None, false, None, AllCases);
      session := IdleSession;
      progress := Progress([], InitialUser);
      this.simulator := simulator;
    }

    /** Restores saved scores; nothing changes when nothing readable is saved. */
    method LoadScores(saved: SavedScores)
      requires Valid()
      requires saved.Saved? ==> UniqueKeys(saved.table)
      modifies this
      ensures State() == old(State()).(progress := LoadStep(old(progress), saved))
      ensures Valid()
    {
      if saved.Saved? {
        var scores := Values(saved.table);
        progress := Progress(saved.table,
                             progress.currentUser.(totalScore := Sum(scores), casesCompleted := |scores|));
      }
      LoadStepAggregates(old(progress), saved);
    }

    /** The case library as currently filtered. */
    function ShownCases(): (r: seq<ClinicalCase>)
      reads this
      ensures IsSubsequence(r, screen.caseList)
      ensures forall i :: 0 <= i < |r| ==> CaseMatches(r[i], screen.filters, progress.currentUser.id)
      ensures forall i :: 0 <= i < |screen.caseList|
                          && CaseMatches(screen.caseList[i], screen.filters, progress.currentUser.id)
                          ==> screen.caseList[i] in r
    {
      FilteredCases(screen.caseList, screen.filters, progress.currentUser.id)
    }

    /** Marks a turn as under way. */
    method BeginAutoPilotTurn()
      modifies this
      ensures State() == old(State()).(session := old(session).(loadingMessage := Some(ThinkingMessage)))
      ensures !AutoPilotShouldRespond(session)
    {
      session := session.(loadingMessage := Some(ThinkingMessage));
    }

    /** Sends a line from `sender`, then records the patient's reply or a system notice. */
    method HandleSendMessage(text: string, sender: MessageSender, reply: Reply, now: nat)
      modifies this
      ensures State() == old(State()).(
        session := SendStep(old(session), text, sender, simulator.chatSession, reply, now))
    {
      var sent := ChatMessage(NatToString(now), text, sender, now);
      session := session.(messages := session.messages + [sent], loadingMessage := Some(TypingMessage));
      var r := simulator.SendMessage(text, reply);
      var answer := if r.Ok? then ChatMessage(NatToString(now + 1), r.value, Patient, now)
                    else ChatMessage(NatToString(now), ConnectionLost, System, now);
      session := session.(messages := session.messages + [answer], loadingMessage := None);
      assert session.messages == old(session.messages) + [sent, answer];
    }

    /** Records what the lab call produced and forwards a returned result to the chat;
        a thrown error is returned. */
    method RecordLabResult(testName: string, res: Result<LabReport>, submit: Reply, now: nat)
      returns (outcome: Outcome)
      modifies this
      ensures State() == old(State()).(session := old(session).(
        messages := old(session.messages) + LabEntries(res, now)))
      ensures outcome == OrderOutcome(res, simulator.chatSession, submit)
    {
      if res.Ok? {
        session := session.(messages := session.messages + [LabResultMessage(res.value, now)]);
        outcome := simulator.SubmitDiagnosticResult(
          TestPrefix + testName + ResultSeparator + res.value.text, submit);
      } else {
        outcome := Threw(res.error);
      }
    }

    /** Orders a test as `sender`: bills it, records the order, runs the lab and records
        its result. The lab flag is cleared whether or not the lab call throws; a thrown
        error is returned. */
    method OrderTestAs(testName: string, sender: MessageSender, lab: LabCall, now: nat)
      returns (outcome: Outcome)
      modifies this
      ensures var res := LabReportFor(simulator.currentCase, simulator.apiKeySet, testName,
                                      lab.report, lab.image);
        && State() == old(State()).(session := OrderStep(old(session), testName, sender, res, now))
        && outcome == OrderOutcome(res, simulator.chatSession, lab.submit)
    {
      var order := OrderLine(testName, sender, now);
      session := session.(currentSessionCost := session.currentSessionCost + OrderCost(testName),
                          messages := session.messages + [order], isLabProcessing := true);
      var res, _ := simulator.RunDiagnosticTest(testName, lab.report, lab.image);
      outcome := RecordLabResult(testName, res, lab.submit, now);
      session := session.(isLabProcessing := false);
      assert session.messages == old(session.messages) + [order] + LabEntries(res, now);
    }

    /** A test ordered from the chat screen: the order line is the auto-pilot's while the
        auto-pilot runs and the user's otherwise. */
    method HandleOrderTest(testName: string, lab: LabCall, now: nat) returns (outcome: Outcome)
      modifies this
      ensures var res := LabReportFor(simulator.currentCase, simulator.apiKeySet, testName,
                                      lab.report, lab.image);
        var sender := if old(session.isAutoPilotRunning) then AutoPilot else User;
        && State() == old(State()).(session := OrderStep(old(session), testName, sender, res, now))
        && outcome == OrderOutcome(res, simulator.chatSession, lab.submit)
    {
      outcome := OrderTestAs(testName, if session.isAutoPilotRunning then AutoPilot else User, lab, now);
    }

    // One method per kind of auto-pilot move, each ending the turn.

    /** A move that escaped with an error stops the auto-pilot. */
    method EndTurnOnError(move: Result<AutoPilotAction>, patientReply: Reply, lab: LabCall, now: nat)
      requires move.Err?
      modifies this
      ensures State() == old(State()).(session := TurnStep(old(session), move, simulator.chatSession,
        LabReportFor(simulator.currentCase, simulator.apiKeySet, OrderedTest(move), lab.report, lab.image),
        lab.submit, patientReply, now))
    {
      session := session.(isAutoPilotRunning := false, loadingMessage := None);
    }

    /** The auto-pilot speaks to the patient. */
    method AutoPilotSays(move: Result<AutoPilotAction>, patientReply: Reply, lab: LabCall, now: nat)
      requires move.Ok? && move.value.kind == MessageAction
      modifies this
      ensures State() == old(State()).(session := TurnStep(old(session), move, simulator.chatSession,
        LabReportFor(simulator.currentCase, simulator.apiKeySet, OrderedTest(move), lab.report, lab.image),
        lab.submit, patientReply, now))
    {
      HandleSendMessage(move.value.content, AutoPilot, patientReply, now);
    }

    /** The auto-pilot orders a test; an order that throws stops it. */
    method AutoPilotOrders(move: Result<AutoPilotAction>, patientReply: Reply, lab: LabCall, now: nat)
      requires move.Ok? && move.value.kind == OrderAction
      modifies this
      ensures State() == old(State()).(session := TurnStep(old(session), move, simulator.chatSession,
        LabReportFor(simulator.currentCase, simulator.apiKeySet, OrderedTest(move), lab.report, lab.image),
        lab.submit, patientReply, now))
    {
      var o := OrderTestAs(move.value.content, AutoPilot, lab, now);
      session := session.(isAutoPilotRunning := session.isAutoPilotRunning && o.Completed?,
                          loadingMessage := None);
    }

    /** The auto-pilot's diagnosis closes the case: its entry is recorded and both the
        auto-pilot and the session stop. */
    method AutoPilotDiagnoses(move: Result<AutoPilotAction>, patientReply: Reply, lab: LabCall, now: nat)
      requires move.Ok? && move.value.kind == DiagnosisAction
      modifies this
      ensures State() == old(State()).(session := TurnStep(old(session), move, simulator.chatSession,
        LabReportFor(simulator.currentCase, simulator.apiKeySet, OrderedTest(move), lab.report, lab.image),
        lab.submit, patientReply, now))
    {
      session := session.(messages := session.messages + [DiagnosisMessage(move.value, now)],
                          isAutoPilotRunning := false, isSessionActive := false, loadingMessage := None);
    }

    /** A move of another kind does nothing but end the turn. */
    method AutoPilotIdles(move: Result<AutoPilotAction>, patientReply: Reply, lab: LabCall, now: nat)
      requires move.Ok? && move.value.kind == OtherAction
      modifies this
      ensures State() == old(State()).(session := TurnStep(old(session), move, simulator.chatSession,
        LabReportFor(simulator.currentCase, simulator.apiKeySet, OrderedTest(move), lab.report, lab.image),
        lab.submit, patientReply, now))
    {
      session := session.(loadingMessage := None);
    }

    /** The rest of a turn: asks the service for a move on the session history and
        carries it out. */
    method CompleteAutoPilotTurn(model: string -> Reply, parse: string -> Option<AutoPilotAction>,
                                 patientReply: Reply, lab: LabCall, now: nat)
      modifies this
      ensures var move := AutoPilotMove(old(session), simulator.apiKeySet, model, parse);
        State() == old(State()).(session := TurnStep(old(session), move, simulator.chatSession,
          LabReportFor(simulator.currentCase, simulator.apiKeySet, OrderedTest(move), lab.report, lab.image),
          lab.submit, patientReply, now))
    {
      var move := simulator.GetAutoPilotAction(AutoPilotHistoryAsWritten(session.messages), model, parse);
      if move.Err? {
        EndTurnOnError(move, patientReply, lab, now);
      } else if move.value.kind == MessageAction {
        AutoPilotSays(move, patientReply, lab, now);
      } else if move.value.kind == OrderAction {
        AutoPilotOrders(move, patientReply, lab, now);
      } else if move.value.kind == DiagnosisAction {
        AutoPilotDiagnoses(move, patientReply, lab, now);
      } else {
        AutoPilotIdles(move, patientReply, lab, now);
      }
    }

    /** The effect that drives the auto-pilot: when the guard holds, a whole turn runs. */
    method AutoPilotEffect(model: string -> Reply, parse: string -> Option<AutoPilotAction>,
                           patientReply: Reply, lab: LabCall, now: nat)
      returns (fired: bool)
      modifies this
      ensures fired == AutoPilotShouldRespond(old(session))
      ensures !fired ==> State() == old(State())
      ensures fired ==>
        var thinking := old(session).(loadingMessage := Some(ThinkingMessage));
        var move := AutoPilotMove(thinking, simulator.apiKeySet, model, parse);
        State() == old(State()).(session := TurnStep(thinking, move, simulator.chatSession,
          LabReportFor(simulator.currentCase, simulator.apiKeySet, OrderedTest(move), lab.report, lab.image),
          lab.submit, patientReply, now))
    {
      fired := AutoPilotShouldRespond(session);
      if fired {
        BeginAutoPilotTurn();
        CompleteAutoPilotTurn(model, parse, patientReply, lab, now);
      }
    }

    method ToggleAutoPilot()
      modifies this
      ensures State() == old(State()).(
        session := old(session).(isAutoPilotRunning := !old(session.isAutoPilotRunning)))
    {
      session := session.(isAutoPilotRunning := !session.isAutoPilotRunning);
    }

    method HandleCaseClick(c: ClinicalCase)
      modifies this
      ensures State() == old(State()).(
        screen := old(screen).(selectedCaseDetail := Some(c), viewMode := CaseDetailPage))
    {
      screen := screen.(selectedCaseDetail := Some(c), viewMode := CaseDetailPage);
    }

    /** Practising the case on the detail page makes it the pending case. */
    method HandlePracticeFromDetail()
      modifies this
      ensures old(screen.selectedCaseDetail).None? ==> State() == old(State())
      ensures old(screen.selectedCaseDetail).Some? ==>
        State() == old(State()).(
          screen := old(screen).(pendingCase := old(screen.selectedCaseDetail), showSetupModal := true))
    {
      if screen.selectedCaseDetail.Some? {
        screen := screen.(pendingCase := screen.selectedCaseDetail, showSetupModal := true);
      }
    }

    /** Starts the pending case at the chosen difficulty; without a pending case nothing
        changes. The service keeps the case even when it cannot open a chat. */
    method HandleStartSession(difficulty: Difficulty, protocol: Option<ProtocolFile>,
                              opening: Reply, now: nat)
      modifies this, simulator
      ensures old(screen.pendingCase).None? ==> State() == old(State()) && unchanged(simulator)
      ensures old(screen.pendingCase).Some? ==>
        var c := old(screen.pendingCase).value.(difficulty := difficulty);
        && simulator.currentCase == Some(c) && simulator.turnCount == 0
        && State() == StartStep(old(State()), c, protocol, simulator.apiKeySet, opening, now)
    {
      if screen.pendingCase.None? {
        return;
      }
      var c := screen.pendingCase.value.(difficulty := difficulty);
      session := Session(Some(c), protocol, [], Some(InitializingMessage), session.isLabProcessing,
                         true, 0, [], None, false, false, []);
      screen := screen.(showSetupModal := false, viewMode := ChatPage);
      var r := simulator.StartSession(c, opening);
      if r.Ok? {
        session := session.(messages := [OpeningMessage(r.value, now)]);
      } else {
        screen := screen.(viewMode := DashboardPage);
      }
      session := session.(loadingMessage := None);
    }

    /** Ending the session opens the handover form and stops the auto-pilot. */
    method HandleEndSessionTrigger()
      modifies this
      ensures State() == old(State()).(
        session := old(session).(isAutoPilotRunning := false, showHandover := true))
    {
      session := session.(isAutoPilotRunning := false, showHandover := true);
    }

    /** Leaving without a score ends the session here and in the service. */
    method HandleExitNoScore()
      modifies this, simulator
      ensures State() == old(State()).(
        screen := old(screen).(viewMode := DashboardPage),
        session := old(session).(isAutoPilotRunning := false, isSessionActive := false))
      ensures simulator.chatSession == None && simulator.currentCase == None && simulator.turnCount == 0
    {
      session := session.(isAutoPilotRunning := false, isSessionActive := false);
      simulator.EndSession();
      screen := screen.(viewMode := DashboardPage);
    }

    /** Shows `score` and, with an active case, records it. */
    method StoreScore(score: SimulationScore)
      modifies this
      ensures State() == ScoreStep(old(State()), score)
    {
      screen := screen.(viewMode := ScorePage);
      session := session.(scoreData := Some(score));
      if session.activeCase.Some? {
        var newScores := Put(progress.completedCases, session.activeCase.value.id, score.totalScore);
        var scores := Values(newScores);
        progress := Progress(newScores,
                             progress.currentUser.(totalScore := Sum(scores), casesCompleted := |scores|));
      }
    }

    /** Grades the session and, with an active case, records the score. */
    method HandleFinishHandover(evaluator: (string, string, Option<ProtocolFile>) -> Option<SimulationScore>)
      modifies this
      ensures State() == FinishStep(old(State()),
                                    Evaluation(simulator.currentCase, simulator.apiKeySet, old(session.messages),
                                               old(session.handoverNote), old(session.customProtocolFile), evaluator))
    {
      session := CloseStep(session);
      var res := simulator.EvaluateSession(session.messages, session.handoverNote,
                                           session.customProtocolFile, evaluator);
      if res.Ok? {
        StoreScore(res.value);
      }
      session := session.(loadingMessage := None);
    }

    /** Whether the case page counts a case as done: a stored, non-zero score. */
    predicate IsCaseCompleted(caseId: string): (r: bool)
      reads this
      ensures Get(progress.completedCases, caseId).None? ==> !r
      ensures Get(progress.completedCases, caseId) == Some(0) ==> !r
      ensures r <==> Get(progress.completedCases, caseId).Some? && Get(progress.completedCases, caseId).value != 0
    {
      TruthyScore(progress.completedCases, caseId)
    }
  }
}
