/** The `PatientSimulator` service: the session it holds (chat, case, turn counter) and
    the deterministic parts of its calls. Every reply of the generative-AI service is a
    parameter: a `Reply` for a call whose input is not modelled, a function of the
    prompt's variable part where the model passes that part on. */
module GeminiService {
  import opened Types
  import opened Text

  /** A chat opened with the model: the case's persona and the historian instruction. */
  datatype Chat = Chat(persona: string, historian: string, patientName: string, userRole: Role)

  /** The instruction that sets how the patient tells their history, by difficulty. */
  function HistorianInstruction(d: Difficulty): string {
    match d
    case Novice => "You are a 'Straightforward Historian'. Answer clearly."
    case Intermediate => "You are a 'Realistic Historian'. Normal anxiety."
    case Advanced => "You are a 'Difficult Historian'. Vague, anxious, or contradictory."
  }

  /** Each difficulty selects its own instruction. */
  lemma HistorianInstructionInjective(d1: Difficulty, d2: Difficulty)
    ensures HistorianInstruction(d1) == HistorianInstruction(d2) <==> d1 == d2
  {
  }

  const OpeningFallback: string := "*Patient looks at you*"
  const OpeningOnError: string := "I don't feel well."
  const EmptyReplyFallback: string := "..."
  const LabOffline: string := "Error: Lab system offline. Please retry."
  const TestUnavailable: string := "Test unavailable."
  const AssetAnalysisError: string := "Error analyzing asset."
  const AssetUninterpreted: string := "Could not interpret asset."

  /** `response.text || fallback`: an empty reply reads as the fallback. */
  function OrElse(text: string, fallback: string): (r: string)
    ensures text != [] ==> r == text
    ensures text == [] ==> r == fallback
  {
    if text == [] then fallback else text
  }

  /** The patient's first line: the reply, a stand-in for an empty reply, or a fixed line
      when the call fails. */
  function OpeningLine(opening: Reply): (r: string)
    ensures r != []
    ensures opening.Failed? ==> r == OpeningOnError
    ensures opening.Answered? && opening.text != [] ==> r == opening.text
  {
    match opening
    case Failed => OpeningOnError
    case Answered(text) => OrElse(text, OpeningFallback)
  }

  // ----- Auto-pilot -----

  /** The `type` tag of a parsed auto-pilot action; `OtherAction` is any other tag. */
  datatype ActionKind = MessageAction | OrderAction | DiagnosisAction | OtherAction

  datatype AutoPilotAction = AutoPilotAction(kind: ActionKind, content: string, reasoning: string)

  /** The action returned when the reply cannot be obtained or parsed. */
  const FallbackAction: AutoPilotAction :=
    AutoPilotAction(MessageAction, "Can you describe your symptoms again?", "Error recovery")

  const Fence: string := "```"
  const JsonFence: string := "```json"

  /** Every "```json", then every "```" is deleted, then the text is trimmed. */
  function StripFences(raw: string): (r: string)
    ensures !Contains(r, Fence)
  {
    var x := RemoveAll(RemoveAll(raw, JsonFence), Fence);
    RemoveAllFenceComplete(RemoveAll(raw, JsonFence));
    ContainsTrans(x, Trim(x), Fence);
    Trim(x)
  }

  lemma {:induction false} RemoveFenceKeepsHead(t: string)
    requires t != [] && t[0] != '`'
    ensures RemoveAll(t, Fence) != [] && RemoveAll(t, Fence)[0] == t[0]
  {
    if |t| >= |Fence| {
      assert t[..|Fence|][0] == t[0];
    }
  }

  /** A text not starting with two backticks keeps that shape through the deletion. */
  lemma {:induction false} RemoveFenceNoDoubleTick(t: string)
    requires !StartsWith(t, "``")
    ensures !StartsWith(RemoveAll(t, Fence), "``")
  {
    if |t| >= |Fence| {
      if t[0] == '`' {
        assert t[1] != '`' by { assert t[..2] != "``"; assert t[..2] == [t[0], t[1]]; }
        assert t[..|Fence|] != Fence by { assert t[..|Fence|][1] == t[1]; }
        RemoveFenceKeepsHead(t[1..]);
        var r := RemoveAll(t, Fence);
        assert r == [t[0]] + RemoveAll(t[1..], Fence);
        assert r[1] == t[1];
        assert r[..2] != "``" by { assert r[..2][1] == r[1]; }
      } else {
        RemoveFenceKeepsHead(t);
      }
    }
  }

  /** After deleting every "```", none is left: deletions never join into a new fence. */
  lemma {:induction false} RemoveAllFenceComplete(s: string)
    ensures !Contains(RemoveAll(s, Fence), Fence)
    decreases |s|
  {
    if |s| < |Fence| {
      ShortNotContains(s, Fence);
    } else if s[..|Fence|] == Fence {
      RemoveAllFenceComplete(s[|Fence|..]);
    } else {
      var x := RemoveAll(s[1..], Fence);
      RemoveAllFenceComplete(s[1..]);
      var r := [s[0]] + x;
      assert RemoveAll(s, Fence) == r;
      assert r[1..] == x;
      if s[0] == '`' {
        assert s[..|Fence|] == [s[0]] + s[1..][..2];
        RemoveFenceNoDoubleTick(s[1..]);
        assert !StartsWith(r, Fence) by {
          if |r| >= 3 {
            assert r[..3] == [s[0]] + x[..2];
          }
        }
      } else {
        assert !StartsWith(r, Fence) by {
          if |r| >= 3 {
            assert r[..3][0] == s[0];
          }
        }
      }
    }
  }

  /** A reply wrapped in a ```json fence, and a bare reply, both parse as the trimmed body
      when the body holds no backtick. */
  lemma FencedReplyIsBody(body: string)
    requires forall i :: 0 <= i < |body| ==> body[i] != '`'
    ensures StripFences(JsonFence + body + Fence) == Trim(body)
    ensures StripFences(body) == Trim(body)
  {
    RemoveAllPrefix(JsonFence, body + Fence);
    assert JsonFence + body + Fence == JsonFence + (body + Fence);
    RemoveAllHead(body, Fence, JsonFence);
    assert RemoveAll(Fence, JsonFence) == Fence;
    RemoveAllHead(body, Fence, Fence);
    RemoveAllPrefix(Fence, []);
    assert Fence + [] == Fence;
    assert body + RemoveAll([], Fence) == body;
    RemoveAllHead(body, [], JsonFence);
    RemoveAllHead(body, [], Fence);
    assert body + [] == body;
  }

  /** `response.text || "{}"`. */
  function RawActionText(text: string): (r: string)
    ensures r != []
  {
    OrElse(text, "{}")
  }

  /** The action a reply yields: the parsed object, or the fallback when the call failed
      or the cleaned text does not parse. */
  function ActionFrom(reply: Reply, parse: string -> Option<AutoPilotAction>): (r: AutoPilotAction)
    ensures reply.Failed? ==> r == FallbackAction
    ensures reply.Answered? && parse(StripFences(RawActionText(reply.text))).None? ==> r == FallbackAction
    ensures reply.Answered? && parse(StripFences(RawActionText(reply.text))).Some?
            ==> r == parse(StripFences(RawActionText(reply.text))).value
    ensures r == FallbackAction || (reply.Answered? && Some(r) == parse(StripFences(RawActionText(reply.text))))
  {
    match reply
    case Failed => FallbackAction
    case Answered(text) =>
      var parsed := parse(StripFences(RawActionText(text)));
      if parsed.Some? then parsed.value else FallbackAction
  }

  /** A reply wrapped in a ```json fence yields the same action as the bare reply, when
      the body is non-empty and holds no backtick. */
  lemma FencedActionIsBareAction(body: string, parse: string -> Option<AutoPilotAction>)
    requires body != []
    requires forall i :: 0 <= i < |body| ==> body[i] != '`'
    ensures ActionFrom(Answered(JsonFence + body + Fence), parse) == ActionFrom(Answered(body), parse)
  {
    FencedReplyIsBody(body);
    assert RawActionText(JsonFence + body + Fence) == JsonFence + body + Fence;
    assert RawActionText(body) == body;
  }

  // ----- Diagnostic lab -----

  datatype LabReport = LabReport(text: string, imageUrl: Option<string>)

  /** An asset answers a test when either lower-cased name contains the other. */
  predicate AssetMatches(a: DiagnosticAsset, testName: string) {
    Contains(ToLower(a.name), ToLower(testName)) || Contains(ToLower(testName), ToLower(a.name))
  }

  /** The first asset of the case that answers the test, if the case has assets. */
  function MatchAsset(assets: Option<seq<DiagnosticAsset>>, testName: string): (r: Option<DiagnosticAsset>)
    ensures r.Some? ==> assets.Some? && r.value in assets.value && AssetMatches(r.value, testName)
    ensures r.None? <==> assets.None? || forall i :: 0 <= i < |assets.value| ==> !AssetMatches(assets.value[i], testName)
    ensures r.Some? ==> exists i :: 0 <= i < |assets.value| && assets.value[i] == r.value
                                    && forall j :: 0 <= j < i ==> !AssetMatches(assets.value[j], testName)
  {
    if assets.None? then None else Find(assets.value, a => AssetMatches(a, testName))
  }

  lemma LowerUpperLower(s: string)
    ensures ToLower(ToUpper(s)) == ToLower(s)
    ensures ToLower(ToLower(s)) == ToLower(s)
  {
  }

  /** Matching ignores letter case in the test name, an asset answers a test of its own
      name, and an asset with an empty name answers every test. */
  lemma AssetMatchFacts(a: DiagnosticAsset, testName: string)
    ensures AssetMatches(a, ToUpper(testName)) == AssetMatches(a, testName)
    ensures AssetMatches(a, a.name)
    ensures a.name == [] ==> AssetMatches(a, testName)
  {
    LowerUpperLower(testName);
    ContainsSelf(ToLower(a.name));
    ContainsEmpty(ToLower(testName));
  }

  /** The tests that also get a generated image. */
  const VisualKeywords: seq<string> :=
    ["ecg", "ekg", "x-ray", "cxr", "ct", "mri", "ultrasound", "scan", "us", "echo",
     "imaging", "derm", "skin", "rash", "lesion", "angio"]

  /** `keywords.some(k => s.includes(k))`. */
  function ContainsAny(s: string, keywords: seq<string>): (r: bool)
    ensures r <==> exists i :: 0 <= i < |keywords| && Contains(s, keywords[i])
    decreases |keywords|
  {
    if keywords == [] then false
    else
      var rest := ContainsAny(s, keywords[1..]);
      assert forall i :: 1 <= i < |keywords| ==> keywords[i] == keywords[1..][i - 1];
      Contains(s, keywords[0]) || rest
  }

  predicate IsVisual(testName: string) {
    ContainsAny(ToLower(testName), VisualKeywords)
  }

  /** The style prompt for a generated image. */
  datatype ImageStyle = RhythmStrip | Radiograph | ClinicalPhoto | CrossSection | GenericImage

  /** The style, in a fixed priority: ECG/EKG, then x-ray/CXR, then derm/skin, then CT/MRI. */
  function StyleFor(testName: string): (r: ImageStyle)
    ensures var l := ToLower(testName);
      && (r == RhythmStrip <==> Contains(l, "ecg") || Contains(l, "ekg"))
      && (r == Radiograph <==> !Contains(l, "ecg") && !Contains(l, "ekg")
                                && (Contains(l, "x-ray") || Contains(l, "cxr")))
      && (r == GenericImage <==> !ContainsAny(l, ["ecg", "ekg", "x-ray", "cxr", "derm", "skin", "ct", "mri"]))
  {
    var l := ToLower(testName);
    var ks: seq<string> := ["ecg", "ekg", "x-ray", "cxr", "derm", "skin", "ct", "mri"];
    assert ks[0] == "ecg" && ks[1] == "ekg" && ks[2] == "x-ray" && ks[3] == "cxr";
    assert ks[4] == "derm" && ks[5] == "skin" && ks[6] == "ct" && ks[7] == "mri";
    if Contains(l, "ecg") || Contains(l, "ekg") then RhythmStrip
    else if Contains(l, "x-ray") || Contains(l, "cxr") then Radiograph
    else if Contains(l, "derm") || Contains(l, "skin") then ClinicalPhoto
    else if Contains(l, "ct") || Contains(l, "mri") then CrossSection
    else GenericImage
  }

  /** Every specific style is chosen only for a visual test. */
  lemma StyledIsVisual(testName: string)
    ensures StyleFor(testName) != GenericImage ==> IsVisual(testName)
  {
    var l := ToLower(testName);
    var ks := VisualKeywords;
    assert ks[0] == "ecg" && ks[1] == "ekg" && ks[2] == "x-ray" && ks[3] == "cxr";
    assert ks[4] == "ct" && ks[5] == "mri" && ks[11] == "derm" && ks[12] == "skin";
  }

  /** The report a test order produces for the active case: an error when there is no
      case, or when no asset answers the test and there is no client; the asset's own text
      and file when one answers it; otherwise the model's report (`report`) with, for a
      visual test, the generated image (`image`). */
  function LabReportFor(activeCase: Option<ClinicalCase>, apiKeySet: bool, testName: string,
                        report: Reply, image: Option<string>): Result<LabReport>
  {
    if activeCase.None? then Err(NoActiveCase)
    else
      var matched := MatchAsset(activeCase.value.assets, testName);
      if matched.Some? then Ok(LabReport(matched.value.description, Some(matched.value.url)))
      else if !apiKeySet then Err(MissingApiKey)
      else match report
        case Failed => Ok(LabReport(LabOffline, None))
        case Answered(text) =>
          Ok(LabReport(OrElse(text, TestUnavailable), if IsVisual(testName) then image else None))
  }

  /** The lab's answer to an order: it fails exactly without a case, or without an asset
      answering the test and without a client; an asset takes precedence over the model;
      the model's report falls back to fixed texts and carries an image only for a visual
      test. */
  lemma LabReportForCases(activeCase: Option<ClinicalCase>, apiKeySet: bool, testName: string,
                          report: Reply, image: Option<string>)
    ensures var r := LabReportFor(activeCase, apiKeySet, testName, report, image);
      && (r.Err? <==> activeCase.None? || (MatchAsset(activeCase.value.assets, testName).None? && !apiKeySet))
      && (activeCase.None? ==> r == Err(NoActiveCase))
      && (r.Err? && activeCase.Some? ==> r.error == MissingApiKey)
      && (activeCase.Some? && MatchAsset(activeCase.value.assets, testName).Some? ==>
            var a := MatchAsset(activeCase.value.assets, testName).value;
            r == Ok(LabReport(a.description, Some(a.url))))
      && (r.Ok? && MatchAsset(activeCase.value.assets, testName).None? ==>
            && (report.Failed? ==> r.value == LabReport(LabOffline, None))
            && (report.Answered? ==> r.value.text == OrElse(report.text, TestUnavailable))
            && (r.value.imageUrl.Some? ==> IsVisual(testName) && r.value.imageUrl == image))
  {
  }

  // ----- Evaluation -----

  /** The label of a sender in the evaluation transcript. */
  function SenderLabel(s: MessageSender): (r: string)
    ensures s == User ==> r == "USER_DOCTOR"
    ensures s == AutoPilot ==> r == "AI_AUTOPILOT"
    ensures s != User && s != AutoPilot ==> r == ToUpper(SenderValue(s))
  {
    match s
    case User => "USER_DOCTOR"
    case AutoPilot => "AI_AUTOPILOT"
    case _ => ToUpper(SenderValue(s))
  }

  /** Upper-casing the three sender values, one at a time. */
  lemma UpperSystem(v: string)
    requires v == "system"
    ensures ToUpper(v) == "SYSTEM"
  {
    var u := ToUpper(v);
    assert v[0] == 's' && v[1] == 'y' && v[2] == 's' && v[3] == 't' && v[4] == 'e' && v[5] == 'm';
    assert |u| == 6 && u[0] == 'S' && u[1] == 'Y' && u[2] == 'S';
    assert u[3] == 'T' && u[4] == 'E' && u[5] == 'M';
  }

  lemma UpperModel(v: string)
    requires v == "model"
    ensures ToUpper(v) == "MODEL"
  {
    var u := ToUpper(v);
    assert v[0] == 'm' && v[1] == 'o' && v[2] == 'd' && v[3] == 'e' && v[4] == 'l';
    assert |u| == 5 && u[0] == 'M' && u[1] == 'O' && u[2] == 'D' && u[3] == 'E' && u[4] == 'L';
  }

  lemma UpperMentor(v: string)
    requires v == "mentor"
    ensures ToUpper(v) == "MENTOR"
  {
    var u := ToUpper(v);
    assert v[0] == 'm' && v[1] == 'e' && v[2] == 'n' && v[3] == 't' && v[4] == 'o' && v[5] == 'r';
    assert |u| == 6 && u[0] == 'M' && u[1] == 'E' && u[2] == 'N';
    assert u[3] == 'T' && u[4] == 'O' && u[5] == 'R';
  }

  /** The three upper-cased labels, spelled out. */
  lemma UpperCasedLabels()
    ensures SenderLabel(System) == "SYSTEM"
    ensures SenderLabel(Patient) == "MODEL"
    ensures SenderLabel(Mentor) == "MENTOR"
  {
    UpperSystem(SenderValue(System));
    UpperModel(SenderValue(Patient));
    UpperMentor(SenderValue(Mentor));
  }

  /** Distinct senders get distinct labels, so the transcript says who spoke. */
  lemma SenderLabelInjective(s1: MessageSender, s2: MessageSender)
    ensures SenderLabel(s1) == SenderLabel(s2) <==> s1 == s2
  {
    if SenderLabel(s1) == SenderLabel(s2) {
      LabelStart(s1);
      LabelStart(s2);
    }
  }

  /** The first two letters of each label, which already tell the senders apart. */
  function LabelHead(s: MessageSender): (r: string)
    ensures |r| == 2
  {
    match s
    case User => "US"
    case AutoPilot => "AI"
    case System => "SY"
    case Patient => "MO"
    case Mentor => "ME"
  }

  lemma LabelStart(s: MessageSender)
    ensures |SenderLabel(s)| >= 2 && SenderLabel(s)[..2] == LabelHead(s)
  {
    UpperCasedLabels();
    match s
    case User =>
    case AutoPilot =>
    case System =>
    case Patient =>
    case Mentor =>
  }

  function TranscriptLine(m: Message): string {
    "[" + SenderLabel(m.sender) + "]: " + m.text
  }

  /** `lines.join(sep)`. */
  function Join(lines: seq<string>, sep: string): (r: string)
    ensures lines == [] ==> r == []
    decreases |lines|
  {
    if lines == [] then []
    else if |lines| == 1 then lines[0]
    else lines[0] + sep + Join(lines[1..], sep)
  }

  /** Every joined line is part of the joined text. */
  lemma {:induction false} JoinContains(lines: seq<string>, sep: string, i: int)
    requires 0 <= i < |lines|
    ensures Contains(Join(lines, sep), lines[i])
    decreases i
  {
    if |lines| == 1 {
      ContainsSelf(lines[0]);
    } else if i == 0 {
      ContainsInfix([], lines[0], sep + Join(lines[1..], sep));
      assert [] + lines[0] + (sep + Join(lines[1..], sep)) == Join(lines, sep);
    } else {
      JoinContains(lines[1..], sep, i - 1);
      ContainsExtend(lines[0] + sep, Join(lines[1..], sep), [], lines[i]);
      assert lines[0] + sep + Join(lines[1..], sep) + [] == Join(lines, sep);
    }
  }

  /** The transcript sent for grading: one labelled line per message. */
  function Transcript(messages: seq<Message>): (r: string)
    ensures messages == [] ==> r == []
  {
    Join(seq(|messages|, i requires 0 <= i < |messages| => TranscriptLine(messages[i])), "\n")
  }

  /** Every message appears in the transcript under its sender's label. */
  lemma TranscriptHasEveryMessage(messages: seq<Message>, i: int)
    requires 0 <= i < |messages|
    ensures Contains(Transcript(messages), "[" + SenderLabel(messages[i].sender) + "]: " + messages[i].text)
  {
    var lines := seq(|messages|, j requires 0 <= j < |messages| => TranscriptLine(messages[j]));
    JoinContains(lines, "\n", i);
  }

  /** The score returned when grading fails: zero scores, "Error" texts, empty lists. */
  const FallbackScore: SimulationScore := SimulationScore(
    0, false, "Error", "Error", 0, 0, 0, "Error", 0, "Error", 0, [], "Evaluation Failed", "Error",
    [], [], [])

  /** An uploaded protocol document; it is attached only when both parts are non-empty. */
  datatype ProtocolFile = ProtocolFile(data: string, mime: string)

  function AttachedProtocol(p: Option<ProtocolFile>): (r: Option<ProtocolFile>)
    ensures r.Some? <==> p.Some? && p.value.data != [] && p.value.mime != []
    ensures r.Some? ==> r == p
  {
    if p.Some? && p.value.data != [] && p.value.mime != [] then p else None
  }

  /** The outcome of grading a session: an error without a case or a client; otherwise
      the service's score, or the zero fallback when grading fails. The transcript, the
      note and the protocol (only when both of its parts are present) are what the
      service is shown. */
  function Evaluation(activeCase: Option<ClinicalCase>, apiKeySet: bool, messages: seq<Message>,
                      handoverNote: string, protocol: Option<ProtocolFile>,
                      evaluator: (string, string, Option<ProtocolFile>) -> Option<SimulationScore>)
    : (r: Result<SimulationScore>)
    ensures activeCase.None? ==> r == Err(NoActiveCase)
    ensures activeCase.Some? && !apiKeySet ==> r == Err(MissingApiKey)
    ensures r.Ok? <==> activeCase.Some? && apiKeySet
    ensures r.Ok? && evaluator(Transcript(messages), handoverNote, AttachedProtocol(protocol)).Some?
            ==> r.value == evaluator(Transcript(messages), handoverNote, AttachedProtocol(protocol)).value
    ensures r.Ok? && evaluator(Transcript(messages), handoverNote, AttachedProtocol(protocol)).None?
            ==> r.value == FallbackScore
    ensures r.Ok? && r.value != FallbackScore
            ==> Some(r.value) == evaluator(Transcript(messages), handoverNote, AttachedProtocol(protocol))
  {
    if activeCase.None? then Err(NoActiveCase)
    else if !apiKeySet then Err(MissingApiKey)
    else
      var graded := evaluator(Transcript(messages), handoverNote, AttachedProtocol(protocol));
      Ok(if graded.Some? then graded.value else FallbackScore)
  }

  // ----- The service object -----

  class PatientSimulator {
    var chatSession: Option<Chat>
    var currentCase: Option<ClinicalCase>
    var turnCount: int
    /** Whether the process environment provides API_KEY; `getClient` throws otherwise. */
    const apiKeySet: bool

    constructor (apiKeySet: bool)
      ensures chatSession == None && currentCase == None && turnCount == 0
      ensures this.apiKeySet == apiKeySet
    {
      chatSession := None;
      currentCase := None;
      turnCount := 0;
      this.apiKeySet := apiKeySet;
    }

    /** Stores the case and resets the turn counter before anything can throw; with a
        client, opens a chat for the case and returns the patient's opening line. */
    method StartSession(c: ClinicalCase, opening: Reply) returns (r: Result<string>)
      modifies this
      ensures currentCase == Some(c) && turnCount == 0
      ensures !apiKeySet ==> r == Err(MissingApiKey) && chatSession == old(chatSession)
      ensures apiKeySet ==> chatSession == Some(Chat(c.systemInstruction,
                HistorianInstruction(c.difficulty), c.patientName, c.role))
      ensures apiKeySet ==> r == Ok(OpeningLine(opening))
    {
      currentCase := Some(c);
      turnCount := 0;
      if !apiKeySet {
        return Err(MissingApiKey);
      }
      chatSession := Some(Chat(c.systemInstruction, HistorianInstruction(c.difficulty),
                               c.patientName, c.role));
      match opening
      case Failed => r := Ok(OpeningOnError);
      case Answered(text) => r := Ok(OrElse(text, OpeningFallback));
    }

    /** Sends a line to the open chat. */
    method SendMessage(message: string, reply: Reply) returns (r: Result<string>)
      ensures chatSession.None? ==> r == Err(NoSession)
      ensures chatSession.Some? && reply.Failed? ==> r == Err(ServiceFailure)
      ensures chatSession.Some? && reply.Answered? ==> r == Ok(OrElse(reply.text, EmptyReplyFallback))
      ensures r.Ok? ==> r.value != []
    {
      if chatSession.None? {
        return Err(NoSession);
      }
      match reply
      case Failed => r := Err(ServiceFailure);
      case Answered(text) => r := Ok(OrElse(text, EmptyReplyFallback));
    }

    /** Asks the model for the next auto-pilot move. `model` is the reply the service
        gives for the session history it is shown; `parse` is `JSON.parse` (None when
        it throws). Only a missing client escapes as an error. */
    method GetAutoPilotAction(history: string, model: string -> Reply,
                              parse: string -> Option<AutoPilotAction>)
      returns (r: Result<AutoPilotAction>)
      ensures !apiKeySet ==> r == Err(MissingApiKey)
      ensures apiKeySet ==> r == Ok(ActionFrom(model(history), parse))
    {
      if !apiKeySet {
        return Err(MissingApiKey);
      }
      var reply := model(history);
      match reply
      case Failed => r := Ok(FallbackAction);
      case Answered(text) =>
        var parsed := parse(StripFences(RawActionText(text)));
        if parsed.Some? {
          r := Ok(parsed.value);
        } else {
          r := Ok(FallbackAction);
        }
    }

    /** Runs a test: a matching case asset answers it without the model; otherwise the
        model writes the report and, for a visual test, an image is requested in the
        returned style. */
    method RunDiagnosticTest(testName: string, report: Reply, image: Option<string>)
      returns (r: Result<LabReport>, style: Option<ImageStyle>)
      ensures r == LabReportFor(currentCase, apiKeySet, testName, report, image)
      ensures style.Some? <==> currentCase.Some? && MatchAsset(currentCase.value.assets, testName).None?
                               && apiKeySet && report.Answered? && IsVisual(testName)
      ensures style.Some? ==> style.value == StyleFor(testName)
    {
      style := None;
      if currentCase.None? {
        return Err(NoActiveCase), None;
      }
      var matched := MatchAsset(currentCase.value.assets, testName);
      if matched.Some? {
        return Ok(LabReport(matched.value.description, Some(matched.value.url))), None;
      }
      if !apiKeySet {
        return Err(MissingApiKey), None;
      }
      match report
      case Failed =>
        r := Ok(LabReport(LabOffline, None));
      case Answered(text) =>
        var url: Option<string> := None;
        if IsVisual(testName) {
          style := Some(StyleFor(testName));
          url := image;
        }
        r := Ok(LabReport(OrElse(text, TestUnavailable), url));
    }

    /** Forwards a lab result to the open chat, if any. */
    method SubmitDiagnosticResult(result: string, reply: Reply) returns (o: Outcome)
      ensures o.Threw? <==> chatSession.Some? && reply.Failed?
      ensures o.Threw? ==> o.failure == ServiceFailure
    {
      if chatSession.Some? && reply.Failed? {
        o := Threw(ServiceFailure);
      } else {
        o := Completed;
      }
    }

    /** Grades the session. `evaluator` is the parsed score the service returns for the
        transcript, the handover note and the attached protocol (None when the call or
        the parse fails). */
    method EvaluateSession(messages: seq<Message>, handoverNote: string,
                           protocol: Option<ProtocolFile>,
                           evaluator: (string, string, Option<ProtocolFile>) -> Option<SimulationScore>)
      returns (r: Result<SimulationScore>)
      ensures r == Evaluation(currentCase, apiKeySet, messages, handoverNote, protocol, evaluator)
    {
      if currentCase.None? {
        return Err(NoActiveCase);
      }
      if !apiKeySet {
        return Err(MissingApiKey);
      }
      var graded := evaluator(Transcript(messages), handoverNote, AttachedProtocol(protocol));
      if graded.Some? {
        r := Ok(graded.value);
      } else {
        r := Ok(FallbackScore);
      }
    }

    /** Describes an uploaded asset; a failed call yields a fixed message. */
    method AnalyzeUploadedAsset(asset: DiagnosticAsset, reply: Reply) returns (r: Result<string>)
      ensures !apiKeySet ==> r == Err(MissingApiKey)
      ensures apiKeySet && reply.Failed? ==> r == Ok(AssetAnalysisError)
      ensures apiKeySet && reply.Answered? ==> r == Ok(OrElse(reply.text, AssetUninterpreted))
    {
      if !apiKeySet {
        return Err(MissingApiKey);
      }
      match reply
      case Failed => r := Ok(AssetAnalysisError);
      case Answered(text) => r := Ok(OrElse(text, AssetUninterpreted));
    }

    /** Forgets the chat and the case. */
    method EndSession()
      modifies this
      ensures chatSession == None && currentCase == None && turnCount == 0
    {
      chatSession := None;
      currentCase := None;
      turnCount := 0;
    }
  }
}
