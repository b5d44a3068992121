# DocNet clinical simulator — a Dafny model of its core

DocNet is a browser application in which clinicians practise on simulated patients. A
language model plays the patient, and an optional "auto-pilot" plays the doctor. The
application grades each finished case, keeps a score table, and surrounds the simulator
with a small professional network: a feed, messages, a leaderboard, a curriculum, jobs and
profiles.

This project models the parts of that program that follow fixed rules:

- **`App`**: the simulation controller.
  - The case-library filter and the rule that bills test orders.
  - The guard that lets the auto-pilot take a turn, and the turn itself (message, order or
    diagnosis).
  - Sending a line, ordering a test, starting a case, ending it, and grading it.
  - The score table and the user totals derived from it.
- **`GeminiService`**: the `PatientSimulator` service.
  - The session it holds and the guards on its calls.
  - Matching a test to a case asset, and picking the image style for visual tests.
  - Stripping code fences from the auto-pilot's reply.
  - The sender labels of the grading transcript, and the fallback score.
- **The social screens**, each with its own module: `CommunityView`, `MessagesView`,
  `NetworkView`, `ProfileView` and `CaseDetailView`.
  - Toggle lists, like counters, comment threads and post creation.
  - The per-chat message tables and their previews.
  - Derived lists, each an order-preserving filter.
- **The progress screens**: `LearningPath`, `ScoreDashboard`, `Leaderboard` and `JobsView`.
  - Curriculum tracks, analytics and the lock rule.
  - Badges and score colours, and the reflection coach.
  - Ranking and its tabs.
  - Job match thresholds.
- **Small UI state machines**:
  - the four-step `CustomCaseBuilder` and its assets;
  - the countdown and send guards of `ChatInterface`;
  - the step playback of `OptimalPathViewer`.
- **Helper modules**:
  - `Types`: the application's records as datatypes.
  - `Text`: the string operations the program uses, such as `toLowerCase`, `includes`,
    `trim`, global `replace` and `padStart`.
  - `Collections`: toggle and add-once lists.
  - `ScoreTable`: the `completedCases` object as an insertion-ordered association list.

Where the source keeps component state and changes it in handlers, the model is a class. Its
fields hold the state, and each handler becomes a method whose `ensures` gives the whole new
state in terms of the old. Where the source computes a value, the model is a function. The
properties the program relies on are stated as lemmas about those functions. Replies from the
language model, the clock (`Date.now()`), the browser's storage, file contents and the user's
confirmations become parameters of the methods that need them.

Three behaviours of the code that are easy to misread:

- A failed auto-pilot order still appends the order line, and possibly the lab result,
  before the error escapes (App.tsx:330-358).
- The score table keeps the latest score of a case, so a re-take with a lower score
  replaces a higher one (App.tsx:279).
- A message turn of the auto-pilot appends the auto-pilot's line and the patient's reply,
  so after the opening line the transcript holds three entries.

## Model

| member | source | states |
|---|---|---|
| App.FilteredCases | App.tsx:144-155 | the library is an order-preserving subsequence; a case is kept iff role, difficulty and category match or are 'All', and the view rule holds |
| App.NoFilterShowsAll | App.tsx:144-155 | with every filter on 'All' and the Assigned view, the whole library is shown |
| App.CaseMatches | App.tsx:144-155 | with every filter on 'All' and the Assigned view a case always matches; My Created keeps only the user's own cases |
| App.SharedCaseInOneView | App.tsx:151-152 | a case is in the Communities view or the Global view, never both, iff it passes the other filters and is not private |
| App.CommunityAndGlobalSplitShared | App.tsx:144-155 | the Communities and Global lists together are exactly as long as the list of non-private cases passing the other filters |
| App.OrderCostIgnoresCase | App.tsx:331 | the price ignores letter case: the upper-cased and lower-cased names cost the same |
| App.OrderCostOfLongerName | App.tsx:331 | a name containing an imaging name ("CT Head", say) costs at least as much as that name |
| App.SubstringBillsElectrolytesAsImaging | App.tsx:331 | the substring rule bills "Electrolytes" at the imaging price |
| App.SubstringMakesElectrolytesVisual | services/geminiService.ts:181-182 | the same substring rule makes "Electrolytes" a visual test |
| App.ReplyMessage | App.tsx:306-321 | the entry after a sent line is the patient's non-empty reply, or "Connection lost." from the system |
| App.LabEntries | App.tsx:345-353 | a returned lab report adds one lab-result entry from the system; a failed call adds none |
| App.OrderMessages | App.tsx:336-353 | an order adds the "Ordering …" line from the ordering sender, then the lab entries |
| App.OrderOutcome | App.tsx:344-357 | an order escapes with an error iff the lab call threw or forwarding its result threw |
| App.HistoryAsWrittenMislabelsPatient | App.tsx:116 | as written, a patient line reaches the auto-pilot labelled "[MODEL]", a label its prompt never defines |
| App.PatientLabelAsWritten | App.tsx:116 | as written, the patient's label is the upper-cased sender value "MODEL" |
| App.ProtocolLabel | services/geminiService.ts:88-91 | the corrected labels: the patient is "PATIENT", every other sender its upper-cased value |
| App.HistoryFollowsProtocol | App.tsx:116 | with the corrected labels, every auto-pilot, patient or system entry appears under one of the prompt's labels |
| App.AutoPilotUpperCased | App.tsx:116 | the auto-pilot's own lines reach its history labelled "AUTOPILOT" |
| App.WithScores | App.tsx:88-92 | the user's total is the sum of the table's scores and the case count is its size |
| App.LoadStepAggregates | App.tsx:84-97 | loading saved scores sets the table and derives total and count from it; nothing saved changes nothing |
| App.GuardBlocksWhileThinking | App.tsx:100-110 | once a turn has set the loading text, the guard is false, so a turn never fires twice |
| App.SendStepAppendsTwo | App.tsx:297-323 | sending grows the transcript by exactly two entries, the sender's line first; earlier entries are kept and the loading text is cleared |
| App.OrderStepBills | App.tsx:330-358 | an order adds 1200 or 150 to the bill, never lowers it, records the order line from the auto-pilot iff it is running, and leaves the lab idle |
| App.MessageKeepsFrame | App.tsx:119-121 | an auto-pilot message turn keeps the earlier entries and the bill floor, and clears the loading text |
| App.OrderKeepsFrame | App.tsx:122-124 | the same frame for an order turn |
| App.DiagnosisKeepsFrame | App.tsx:125-134 | the same frame for a diagnosis turn |
| App.TurnStepFrame | App.tsx:112-142 | every turn, whatever the move, keeps that frame |
| App.TurnDiagnosisEndsSession | App.tsx:125-134 | a diagnosis appends exactly one auto-pilot entry and leaves the auto-pilot and the session off |
| App.TurnErrorStopsAutoPilot | App.tsx:135-141 | an error escaping the move switches the auto-pilot off, leaves the session active and clears the loading text |
| App.TurnOrderFailureStopsAutoPilot | App.tsx:122-124 | after an order the auto-pilot keeps running iff the order did not throw |
| App.AutoPilotShouldRespond | App.tsx:100-110 | no turn fires while a loading text is shown, nor right after a doctor or auto-pilot line |
| App.SendStep | App.tsx:297-323 | only the transcript and the loading text change; the transcript gains two entries and keeps the earlier ones |
| App.OrderStep | App.tsx:330-358 | only the transcript, the bill and the lab flag change; the bill strictly grows and earlier entries are kept |
| App.AutoPilotMove | App.tsx:112-118 | the move fails iff there is no client; otherwise it is the action read from the reply to the history as the controller writes it |
| App.HistoryAsWrittenHasEveryMessage | App.tsx:116 | every transcript entry reaches the auto-pilot under its upper-cased label, which is the prompt's label for every sender but the patient |
| App.TurnStep | App.tsx:112-142 | a turn clears the loading text, keeps the case, never switches the auto-pilot or the session on, and an escaped error stops the auto-pilot without touching the transcript |
| App.StartStep | App.tsx:198-232 | starting holds the case, activates the session with the auto-pilot off and a zero bill, and leaves the score table alone |
| App.FinishStep | App.tsx:262-295 | grading closes the session and clears the loading text; a result is shown, a failure leaves the table as it was |
| App.StartStepResets | App.tsx:198-232 | starting clears transcript, bill and score, activates the session with the auto-pilot off, and on success the transcript is one patient line |
| App.FinishStepRecordsScore | App.tsx:262-295 | after grading with an active case the table maps it to the new score, overwriting, and the user's total and count follow the table |
| App.FinishStepOnError | App.tsx:288-294 | a failed grading closes the session and leaves table, user and screen as they were |
| App.Simulation.constructor | App.tsx:28-82 | the controller starts on the landing screen with the initial library, an empty session and an empty table |
| App.Simulation.LoadScores | App.tsx:84-97 | the mount effect restores the saved table |
| App.Simulation.ShownCases | App.tsx:144-155 | the library shown is the filtered library |
| App.Simulation.BeginAutoPilotTurn | App.tsx:113 | a turn under way sets the thinking text, which closes the guard |
| App.Simulation.HandleSendMessage | App.tsx:297-323 | the new state is the send step applied to the old |
| App.Simulation.RecordLabResult | App.tsx:344-357 | the lab result is recorded and forwarded; the lab flag is cleared whatever happens |
| App.Simulation.OrderTestAs | App.tsx:330-358 | an order as a given sender: billed, recorded, run and forwarded |
| App.Simulation.HandleOrderTest | App.tsx:330-358 | the order line is the auto-pilot's iff the auto-pilot is running |
| App.Simulation.EndTurnOnError | App.tsx:135-141 | an escaped error ends the turn as the turn step says |
| App.Simulation.AutoPilotSays | App.tsx:119-121 | a message move sends its content as the auto-pilot |
| App.Simulation.AutoPilotOrders | App.tsx:122-124 | an order move orders its test as the auto-pilot |
| App.Simulation.AutoPilotDiagnoses | App.tsx:125-134 | a diagnosis move records the diagnosis and ends the case |
| App.Simulation.AutoPilotIdles | App.tsx:112-142 | a move of another kind only ends the turn |
| App.Simulation.CompleteAutoPilotTurn | App.tsx:112-142 | the turn asks the service for a move on the history with the upper-cased labels and applies the turn step |
| App.Simulation.AutoPilotEffect | App.tsx:100-110 | a turn fires iff auto-pilot on, session active, nothing loading, lab idle, and the transcript is empty or ends with a patient or system line |
| App.Simulation.ToggleAutoPilot | App.tsx:326-328 | flips the auto-pilot flag |
| App.Simulation.HandleCaseClick | App.tsx:157-160 | opens the case's detail page |
| App.Simulation.HandlePracticeFromDetail | App.tsx:162-167 | the detail case becomes the pending case and the setup modal opens; with no detail case nothing changes |
| App.Simulation.HandleStartSession | App.tsx:198-232 | with no pending case nothing changes; otherwise the start step, with the service holding the configured case |
| App.Simulation.HandleEndSessionTrigger | App.tsx:250-253 | the auto-pilot stops and the handover form opens |
| App.Simulation.HandleExitNoScore | App.tsx:255-260 | the session and auto-pilot stop, the service forgets its session, and the dashboard shows |
| App.Simulation.StoreScore | App.tsx:273-287 | the score is shown and, with an active case, recorded |
| App.Simulation.IsCaseCompleted | App.tsx:546 | a case counts as completed iff a non-zero score is stored for it; no score or a stored 0 is not completed |
| App.FinishStepCompletes | App.tsx:278-279 | after a successful grading the case page counts the graded case as completed exactly when its new score is not 0, whatever was stored before |
| LearningPath.CompletedButNotTruthy | components/LearningPathView.tsx:43-44 | a truthy score implies the path's completion mark, and the two disagree exactly on a stored 0 (the case page and the lock at :259 treat it as not done; see Findings) |
| App.Simulation.HandleFinishHandover | App.tsx:262-295 | the new state is the finish step for the service's evaluation |
| GeminiService.HistorianInstructionInjective | services/geminiService.ts:28-35 | each difficulty selects its own historian instruction |
| GeminiService.OrElse | services/geminiService.ts:65 | an empty reply text reads as the fallback |
| GeminiService.OpeningLine | services/geminiService.ts:51-59 | the opening line is the reply, "*Patient looks at you*" for an empty one, or "I don't feel well." when the call fails; never empty |
| GeminiService.StripFences | services/geminiService.ts:121 | no "```" is left after the deletions |
| GeminiService.RemoveAllFenceComplete | services/geminiService.ts:121 | deleting every "```" never joins backticks into a new fence |
| GeminiService.FencedReplyIsBody | services/geminiService.ts:121 | a reply in a ```json fence, and a bare reply, both parse as the trimmed body |
| GeminiService.RawActionText | services/geminiService.ts:118-119 | an empty reply text reads as "{}" |
| GeminiService.ActionFrom | services/geminiService.ts:111-127 | a failed call or an unparsable reply yields the fixed fallback action; a reply that parses yields exactly the parsed action |
| GeminiService.FencedActionIsBareAction | services/geminiService.ts:118-121 | a reply in a ```json fence yields the same action as the bare reply |
| GeminiService.MatchAsset | services/geminiService.ts:136-147 | the first case asset whose lower-cased name contains the lower-cased test name or the reverse; none iff no asset matches |
| GeminiService.AssetMatchFacts | services/geminiService.ts:137-140 | matching ignores the test name's letter case, and an asset answers a test named after it |
| GeminiService.ContainsAny | services/geminiService.ts:182 | true iff some keyword occurs in the text |
| GeminiService.StyleFor | services/geminiService.ts:188-219 | the image style in fixed priority: ECG/EKG, x-ray/CXR, derm/skin, CT/MRI, else generic |
| GeminiService.StyledIsVisual | services/geminiService.ts:181-219 | a specific style is only chosen for a visual test |
| GeminiService.LabReportForCases | services/geminiService.ts:131-250 | the lab fails exactly without a case, or without an asset match and a client; a matching asset answers without the model; a failed model call gives the offline text |
| GeminiService.SenderLabel | services/geminiService.ts:313-315 | User is USER_DOCTOR, AutoPilot is AI_AUTOPILOT, every other sender its upper-cased value |
| GeminiService.UpperCasedLabels | services/geminiService.ts:314 | the upper-cased labels are SYSTEM, MODEL and MENTOR |
| GeminiService.SenderLabelInjective | services/geminiService.ts:313-315 | distinct senders get distinct labels |
| GeminiService.JoinContains | services/geminiService.ts:316 | every joined line is part of the joined text |
| GeminiService.Transcript | services/geminiService.ts:313-317 | an empty session grades an empty transcript |
| GeminiService.TranscriptHasEveryMessage | services/geminiService.ts:313-316 | every message appears in the grading transcript under its sender's label |
| GeminiService.AttachedProtocol | services/geminiService.ts:346 | a protocol file is attached iff both its data and its type are non-empty |
| GeminiService.Evaluation | services/geminiService.ts:302-421 | grading succeeds iff there is a case and a client; a grade the evaluator returns is the result, and a failed one gives the all-zero fallback score |
| GeminiService.PatientSimulator.constructor | services/geminiService.ts:16-20 | the service starts with no chat, no case and a zero turn count |
| GeminiService.PatientSimulator.StartSession | services/geminiService.ts:23-60 | the case is stored and the turn count reset before anything can throw; a client opens the chat and yields the opening line |
| GeminiService.PatientSimulator.SendMessage | services/geminiService.ts:62-66 | without a chat the call throws; otherwise the reply, "..." for an empty one |
| GeminiService.PatientSimulator.GetAutoPilotAction | services/geminiService.ts:69-128 | without a client the call throws; otherwise the action read from the model's reply |
| GeminiService.PatientSimulator.RunDiagnosticTest | services/geminiService.ts:131-250 | the report is the lab rule's; an image is attempted iff the case has no matching asset and the test is visual |
| GeminiService.PatientSimulator.SubmitDiagnosticResult | services/geminiService.ts:286-288 | forwarding throws iff there is a chat and its call fails |
| GeminiService.PatientSimulator.EvaluateSession | services/geminiService.ts:302-421 | the result is the evaluation rule applied to the transcript |
| GeminiService.PatientSimulator.AnalyzeUploadedAsset | services/geminiService.ts:423-441 | without a client the call throws; a failed call gives "Error analyzing asset.", an empty reply "Could not interpret asset." |
| GeminiService.PatientSimulator.EndSession | services/geminiService.ts:468-472 | chat, case and turn count are cleared |
| Text.ToLower | App.tsx:331 | lower-casing keeps the length and maps every character to its lower-case form |
| Text.ToUpper | services/geminiService.ts:314 | upper-casing keeps the length and maps every character to its upper-case form |
| Text.Trim | components/ChatInterface.tsx:132 | the trimmed text occurs in the input and neither starts nor ends with white space |
| Text.TrimRemovesOnlyEdgeSpace | components/ChatInterface.tsx:132 | trimming takes off only white space before and after the result |
| Text.BlankIffAllSpace | components/CommunityView.tsx:58 | a text is blank after trimming iff every character is white space |
| Text.RemoveAll | services/geminiService.ts:121 | a global replace by the empty string never lengthens the text |
| Text.RemoveAllNoOccurrence | services/geminiService.ts:121 | a text without the pattern is left unchanged |
| Text.RemoveAllPrefix | services/geminiService.ts:121 | a leading occurrence of the pattern is dropped |
| Text.PadStart | components/ChatInterface.tsx:127 | padding reaches the width with fill characters in front and keeps the text at the end |
| Text.NatToString | components/ChatInterface.tsx:127 | a number prints as digits without a leading zero |
| Text.ParseNatToString | components/ChatInterface.tsx:127 | the printed digits read back as the number |
| ScoreTable.Get | App.tsx:279 | a stored score is found iff the key is present |
| ScoreTable.PutGet | App.tsx:279 | after writing, the key maps to the new score, overwriting, and other keys are unchanged |
| ScoreTable.PutKeys | App.tsx:279 | an existing key keeps its position; a new key is appended |
| ScoreTable.PutShape | App.tsx:279 | an entry is added iff the key is new, and keys stay distinct |
| ScoreTable.SumPut | App.tsx:282-284 | the sum after writing replaces the old score of the key, if any, by the new one |
| Collections.Toggle | components/CommunityView.tsx:49-55 | the value is present afterwards iff it was absent; other values are untouched; no duplicates are created |
| Collections.ToggleTwice | components/CommunityView.tsx:49-55 | toggling twice restores the members, and the exact list when the value was absent |
| Collections.AddOnceProperties | components/NetworkView.tsx:17-20 | adding once is idempotent, keeps the list free of duplicates, and makes the value present |
| CommunityView.ActiveCommunity | components/CommunityView.tsx:45 | the open community is the one whose id is selected, if any |
| CommunityView.LikePost | components/CommunityView.tsx:87-91 | liking keeps the feed's length and every post's id (the rest in LikeChangesOnlyTarget) |
| CommunityView.UpdatePost | components/CommunityView.tsx:88-90 | only the posts with the id are rewritten |
| CommunityView.LikeChangesOnlyTarget | components/CommunityView.tsx:87-91 | a like changes only the target post: one like up if not liked, one down if liked, and the flag flips |
| CommunityView.LikeTwiceRestores | components/CommunityView.tsx:87-91 | two likes restore the feed |
| CommunityView.CommentText | components/CommunityView.tsx:98-99 | a comment is taken iff text is typed for the post and is not blank |
| CommunityView.NewPostShape | components/CommunityView.tsx:57-85 | a new post has 0 likes and no comments, case fields iff it is a case post, and is community-only iff a community is open or the audience is not "All network" |
| CommunityView.FilteredPosts | components/CommunityView.tsx:509-514 | the home feed is an order-preserving selection of exactly the posts the scope and community filter allow |
| CommunityView.FeedScopes | components/CommunityView.tsx:509-514 | the communities scope hides every network post; the community filter never hides a network post; no filter shows everything |
| CommunityView.CommunityPosts | components/CommunityView.tsx:207 | a community page shows exactly the posts addressed to it, in order |
| CommunityView.CommunityCases | components/CommunityView.tsx:209 | a community page lists the cases at even positions, in order: half of them, rounded up, each even-positioned case at half its position |
| CommunityView.CommentStep | components/CommunityView.tsx:97-119 | a comment changes only the posts and the drafts, keeps the feed's length and leaves every other post alone |
| CommunityView.PostStep | components/CommunityView.tsx:57-85 | posting changes only the posts and the composer and adds at most one post, in front of the old feed |
| CommunityView.CommentStepEffect | components/CommunityView.tsx:97-119 | a blank comment changes nothing; otherwise the matching post gains exactly one comment at the end, its input is cleared and its comments are shown |
| CommunityView.PostStepEffect | components/CommunityView.tsx:57-85 | blank content changes nothing; otherwise the new post goes to the front, the composer is reset and closed, and the type returns to 'update' |
| CommunityView.CommunityFeed.constructor | components/CommunityView.tsx:18-45 | the feed starts with the mock posts, no connections, no drafts and the network scope |
| CommunityView.CommunityFeed.Connect | components/CommunityView.tsx:49-55 | connecting toggles the person's membership |
| CommunityView.CommunityFeed.Like | components/CommunityView.tsx:87-91 | the posts become the liked posts |
| CommunityView.CommunityFeed.ToggleComments | components/CommunityView.tsx:93-95 | the post's comments flip between shown and hidden; a missing flag reads as hidden |
| CommunityView.CommunityFeed.TypeComment | components/CommunityView.tsx:41 | only the post's draft changes |
| CommunityView.CommunityFeed.AddComment | components/CommunityView.tsx:97-119 | the new state is the comment step |
| CommunityView.CommunityFeed.EditComposer | components/CommunityView.tsx:31-38 | only the composer changes |
| CommunityView.CommunityFeed.CreatePost | components/CommunityView.tsx:57-85 | the new state is the post step |
| CommunityView.CommunityFeed.ChooseFeed | components/CommunityView.tsx:21-22 | only the scope and community filter change |
| CommunityView.CommunityFeed.ShownPosts | components/CommunityView.tsx:509-514 | the shown feed is a subsequence of the posts, each allowed by the current view |
| MessagesView.AllChatsShape | components/MessagesView.tsx:39-55 | one direct chat per other user, then one channel per community; only the first of each starts unread (2 and 5) |
| MessagesView.HistoryTableDomain | components/MessagesView.tsx:59-131 | every chat has a history entry and every entry belongs to a chat |
| MessagesView.HistoryTableLookup | components/MessagesView.tsx:59-131 | with distinct ids, each chat's entry is its own generated history |
| MessagesView.DividerOnAppend | components/MessagesView.tsx:400-401 | the first message has a divider; an appended message has one iff it comes more than an hour after its predecessor; earlier dividers stay |
| MessagesView.FilteredChats | components/MessagesView.tsx:185-200 | the chats tab lists only direct chats and the channels tab only channels; a query keeps those whose name contains it, ignoring case; no query keeps the whole kind |
| MessagesView.GenerateHistories | components/MessagesView.tsx:59-131 | the loop gives each chat its history and a preview holding the last message |
| MessagesView.InitialSelection | components/MessagesView.tsx:136-147 | only the selection and the tab change; a new selection is a direct chat with the requested user or the first chat, and a changed tab is the chats tab |
| MessagesView.InitialSelectionFindsRequested | components/MessagesView.tsx:138-143 | a requested user with a direct chat selects that chat on the chats tab |
| MessagesView.MarkSent | components/MessagesView.tsx:176-180 | only the chat with the id gets the message as preview and nothing unread |
| MessagesView.SendStepIgnored | components/MessagesView.tsx:158-160 | blank input or no selected chat changes nothing |
| MessagesView.SendStepHistories | components/MessagesView.tsx:162-182 | the selected chat's history gains exactly the new message, every other history is unchanged, and the input is cleared |
| MessagesView.SendStepPreviews | components/MessagesView.tsx:176-180 | the selected chat's preview is the new message with 0 unread; other chats are unchanged |
| MessagesView.MessageCenter.constructor | components/MessagesView.tsx:29-35 | the inbox starts empty on the chats tab |
| MessagesView.MessageCenter.Setup | components/MessagesView.tsx:37-150 | the chat list, its histories and the initial selection are those the rules above give |
| MessagesView.MessageCenter.TypeMessage | components/MessagesView.tsx:460 | only the input changes |
| MessagesView.MessageCenter.Search | components/MessagesView.tsx:232 | only the query changes |
| MessagesView.MessageCenter.SelectChat | components/MessagesView.tsx:274 | only the selection changes |
| MessagesView.MessageCenter.SwitchTab | components/MessagesView.tsx:242-249 | only the tab changes |
| MessagesView.MessageCenter.SendMessage | components/MessagesView.tsx:158-182 | the new state is the send step |
| MessagesView.MessageCenter.ShownChats | components/MessagesView.tsx:265 | the shown list is a subsequence of the chats, of the tab's kind |
| NetworkView.CommunitiesPartition | components/NetworkView.tsx:204-240 | "My communities" and "Suggested" split the list by membership: each community is in exactly one |
| NetworkView.Network.constructor | components/NetworkView.tsx:12-15 | the page starts on people, with no connections and member of comm-1 and comm-2 |
| NetworkView.Network.Connect | components/NetworkView.tsx:17-20 | connecting adds the id once; an existing id leaves the list unchanged |
| NetworkView.Network.JoinCommunity | components/NetworkView.tsx:22-24 | joining appends the id without a duplicate check, so the counter grows by one |
| NetworkView.Network.CommunityButton | components/NetworkView.tsx:252-263 | an open community is joined; one needing approval changes nothing |
| NetworkView.Network.SwitchTab | components/NetworkView.tsx:12 | only the tab changes |
| NetworkView.Network.Search | components/NetworkView.tsx:138 | only the query changes |
| Types.Others | components/NetworkView.tsx:151 | the recommended people are exactly the users other than the current one, in order, and only the entries with the current user's id are dropped |
| ProfileView.UserPosts | components/ProfileView.tsx:16 | the activity lists exactly the profile user's posts, in order |
| ProfileView.Profile.constructor | components/ProfileView.tsx:13 | the toggle starts on iff the viewer's connections contain the profile user |
| ProfileView.Profile.Connect | components/ProfileView.tsx:18-20 | the toggle flips and the count moves by one accordingly |
| ProfileView.ConnectTwiceRestores | components/ProfileView.tsx:18-20 | two clicks restore the toggle and the count |
| CaseDetailView.PostCommentEffect | components/CaseDetailView.tsx:26-38 | a blank comment changes nothing; otherwise it goes on top with the typed text and 0 likes, the earlier comments follow unchanged, and the input is cleared |
| CaseDetailView.CaseDetail.constructor | components/CaseDetailView.tsx:13-24 | the page starts unsaved, unrevealed, with the two seed comments, unlocked iff the case is completed, and shared globally iff the case is public |
| CaseDetailView.CaseDetail.Reveal | components/CaseDetailView.tsx:226-229 | only a confirmed reveal unlocks, and nothing relocks |
| CaseDetailView.CaseDetail.TypeComment | components/CaseDetailView.tsx:374-375 | only the input changes |
| CaseDetailView.CaseDetail.Comment | components/CaseDetailView.tsx:26-38 | the discussion becomes the posted one |
| CaseDetailView.CaseDetail.ToggleSave | components/CaseDetailView.tsx:105 | the saved flag flips |
| CaseDetailView.CaseDetail.ToggleShareMenu | components/CaseDetailView.tsx:114 | the share menu flag flips |
| CaseDetailView.CaseDetail.ChooseAudience | components/CaseDetailView.tsx:428-439 | only the audience changes |
| CustomCaseBuilder.BaseName | components/CustomCaseBuilder.tsx:70 | the asset name is the file name up to its first dot: a dot-free prefix ending at a dot or the end |
| CustomCaseBuilder.BaseNameOfExtended | components/CustomCaseBuilder.tsx:70 | a dot-free name with an extension reads back as the name |
| CustomCaseBuilder.KindOfMime | components/CustomCaseBuilder.tsx:71 | an upload is an image iff its type contains "image", otherwise a document |
| CustomCaseBuilder.NewAsset | components/CustomCaseBuilder.tsx:66-75 | the asset takes the base name, the kind, the data URL and the type, with an empty description |
| CustomCaseBuilder.WithoutAsset | components/CustomCaseBuilder.tsx:99-101 | removing drops every asset with the id and keeps the others in order |
| CustomCaseBuilder.RemoveUndoesUpload | components/CustomCaseBuilder.tsx:66-101 | removing a just-uploaded asset with a new id restores the list |
| CustomCaseBuilder.UpdateAsset | components/CustomCaseBuilder.tsx:88 | only the assets with the id are rewritten |
| CustomCaseBuilder.AnalysisTouchesOneDescription | components/CustomCaseBuilder.tsx:88 | an analysis changes only the analysed asset's description |
| CustomCaseBuilder.AppendAnalysis | components/CustomCaseBuilder.tsx:90 | empty findings become the analysis block; otherwise the block follows the old findings and a blank line |
| CustomCaseBuilder.DraftContent | components/CustomCaseBuilder.tsx:55 | the draft content is the full draft, or context and complaint when it is empty |
| CustomCaseBuilder.SummaryFacts | components/CustomCaseBuilder.tsx:56 | the summary holds every "name: description" entry, with "; " only between entries |
| CustomCaseBuilder.MasterDescription | components/CustomCaseBuilder.tsx:47-59 | the description handed to the generator contains the draft content line |
| CustomCaseBuilder.DraftTemplate | components/CustomCaseBuilder.tsx:41 | the AI draft starts with the title, or "Unnamed Patient" when there is none |
| CustomCaseBuilder.Builder.constructor | components/CustomCaseBuilder.tsx:13-35 | the builder starts on step 1, private, with no assets |
| CustomCaseBuilder.Builder.Back | components/CustomCaseBuilder.tsx:390-391 | Back, offered after step 1, goes one step back and stays within 1..4 |
| CustomCaseBuilder.Builder.Next | components/CustomCaseBuilder.tsx:395-399 | Next, offered below step 4 and on step 1 only with a title, goes one step on |
| CustomCaseBuilder.Builder.Edit | components/CustomCaseBuilder.tsx:140-250 | only the form changes |
| CustomCaseBuilder.Builder.StartDraft | components/CustomCaseBuilder.tsx:234-237 | drafting starts only on step 2, without a draft, with a patient background and none in progress; the form at the click is captured |
| CustomCaseBuilder.Builder.FinishDraft | components/CustomCaseBuilder.tsx:37-44 | the draft is built from the captured form; only the draft text and the drafting flag change |
| CustomCaseBuilder.DraftIgnoresLaterEdits | components/CustomCaseBuilder.tsx:37-44 | edits made while the draft is pending are kept, and the draft shows the form as it was at the click |
| CustomCaseBuilder.Builder.Upload | components/CustomCaseBuilder.tsx:66-79 | the new asset is appended at the end |
| CustomCaseBuilder.Builder.RemoveAsset | components/CustomCaseBuilder.tsx:99-101 | the assets become those without the id |
| CustomCaseBuilder.Builder.RenameAsset | components/CustomCaseBuilder.tsx:295 | only the named asset's name changes |
| CustomCaseBuilder.Builder.DescribeAsset | components/CustomCaseBuilder.tsx:307 | only the named asset's description changes |
| CustomCaseBuilder.Builder.StartAnalysis | components/CustomCaseBuilder.tsx:315-316 | the analyse button starts an analysis only while none runs, and marks the asset being analysed |
| CustomCaseBuilder.Builder.FinishAnalysis | components/CustomCaseBuilder.tsx:81-97 | a result updates that asset's description and the findings; a failure changes neither; the builder is free again |
| CustomCaseBuilder.Builder.ChooseVisibility | components/CustomCaseBuilder.tsx:352-360 | only the visibility changes |
| CustomCaseBuilder.Builder.SetOwnerCommunity | components/CustomCaseBuilder.tsx:338 | only the owner community changes |
| CustomCaseBuilder.Builder.SetLinkCase | components/CustomCaseBuilder.tsx:379 | only the link flag changes |
| CustomCaseBuilder.Builder.FinalSave | components/CustomCaseBuilder.tsx:47-59 | the generator gets the assembled description, the assets and the visibility |
| ChatInterface.FormatTime | components/ChatInterface.tsx:124-128 | the clock text is at least four characters (its shape is stated by FormatTimeReadsBack) |
| ChatInterface.FormatTimeReadsBack | components/ChatInterface.tsx:124-128 | the clock text is digits, a colon and two digits under 60; minutes times 60 plus seconds gives back the count |
| ChatInterface.PaddedDigitsRead | components/ChatInterface.tsx:127 | a padded seconds field is two digits that read as the seconds |
| ChatInterface.ChatPanel.constructor | components/ChatInterface.tsx:51-62 | the countdown starts at 900 with empty inputs |
| ChatInterface.ChatPanel.Tick | components/ChatInterface.tsx:76-81 | a second passes only while the session is on and time is left, so the countdown never goes negative; the warning, once shown, stays |
| ChatInterface.ChatPanel.Type | components/ChatInterface.tsx:385 | only the input changes |
| ChatInterface.ChatPanel.TypeTest | components/ChatInterface.tsx:360 | only the test input changes |
| ChatInterface.ChatPanel.Submit | components/ChatInterface.tsx:130-135 | the line is sent and cleared iff it is not blank, nothing is loading and the session is on; otherwise nothing changes |
| ChatInterface.ChatPanel.SubmitOrder | components/ChatInterface.tsx:137-143 | a named order goes out, the field is cleared and the popover closes; a blank name changes nothing |
| ChatInterface.ChatPanel.QuickOrder | components/ChatInterface.tsx:326-331 | a quick test orders its name |
| ChatInterface.ChatPanel.ToggleCustomOrder | components/ChatInterface.tsx:340 | the popover flag flips |
| ChatInterface.ChatPanel.CloseCustomOrder | components/ChatInterface.tsx:352 | the popover closes |
| OptimalPathViewer.ReadTime | components/OptimalPathViewer.tsx:29 | the delay is the larger of 1500 ms and 15 ms per character |
| OptimalPathViewer.VisibleSteps | components/OptimalPathViewer.tsx:40 | the shown steps are the first index+1 steps, all of them past the end |
| OptimalPathViewer.VisibleGrows | components/OptimalPathViewer.tsx:24-40 | advancing keeps what was shown and adds the next step |
| OptimalPathViewer.PathPlayer.constructor | components/OptimalPathViewer.tsx:13-14 | playback starts at the first step, playing |
| OptimalPathViewer.PathPlayer.Delay | components/OptimalPathViewer.tsx:26-33 | a timer is armed iff playing and not at the end, with the current step's delay |
| OptimalPathViewer.PathPlayer.Advance | components/OptimalPathViewer.tsx:31-33 | the timer reveals one more step, never past the end |
| OptimalPathViewer.PathPlayer.Settle | components/OptimalPathViewer.tsx:34-36 | past the last step playback stops |
| OptimalPathViewer.PathPlayer.TogglePlay | components/OptimalPathViewer.tsx:61-63 | play and pause flip until the end |
| OptimalPathViewer.PathPlayer.Skip | components/OptimalPathViewer.tsx:70 | skipping jumps to the end, finished and showing every step |
| LearningPath.CurrentTrack | components/LearningPathView.tsx:20 | the track with the selected id, or the first track |
| LearningPath.CurrentTrackChoice | components/LearningPathView.tsx:20 | an unknown id falls back to the first track, with five required cases |
| LearningPath.RoundDiv | components/LearningPathView.tsx:25 | the quotient rounded to the nearest integer, halves up |
| LearningPath.AverageScore | components/LearningPathView.tsx:23-25 | 0 with no scores, else the rounded mean |
| LearningPath.AverageInRange | components/LearningPathView.tsx:23-25 | scores on the 0..100 scale average to a value on that scale |
| LearningPath.AccuracyMetric | components/LearningPathView.tsx:28 | accuracy is at most 100 and, for a non-negative average, between 0 and the average |
| LearningPath.EfficiencyMetric | components/LearningPathView.tsx:29 | efficiency is at most 100 and, for a non-negative average, at least the average up to 100 |
| LearningPath.CoverageMetric | components/LearningPathView.tsx:30 | coverage is at most 100, and not negative |
| LearningPath.MetricsCapped | components/LearningPathView.tsx:28-30 | no metric exceeds 100, and none is negative for a non-negative average |
| LearningPath.CoverageFull | components/LearningPathView.tsx:30 | coverage is 100 once the required count is reached |
| LearningPath.ProgressBounds | components/LearningPathView.tsx:133 | the progress shown is min(completed, required) |
| LearningPath.TrackCases | components/LearningPathView.tsx:34-37 | t1 holds Novice and Intermediate Cardiology cases, any other id every non-Novice case, in order |
| LearningPath.ColumnsPartition | components/LearningPathView.tsx:39-40 | foundations and core rotations split the track by whether the case is Novice |
| LearningPath.ZeroScoreKeepsCoreLocked | components/LearningPathView.tsx:257-261 | as written, two finished foundations, one with score 0, leave the core locked |
| LearningPath.ZeroRetakeRelocks | components/LearningPathView.tsx:257-261 | as written, re-taking a foundation with score 0 relocks an open core |
| LearningPath.RecordingNeverRelocks | components/LearningPathView.tsx:43-44 | counting completed foundations, recording any score never relocks a card |
| LearningPath.CardLockedAsWritten | components/LearningPathView.tsx:248-261 | as written: a foundation card is never locked, nor any card once two foundations have a non-zero stored score |
| LearningPath.CardLocked | components/LearningPathView.tsx:43-44 | corrected rule of the Findings row, counting every completed foundation: a foundation card is never locked, nor any card once two foundations are completed |
| LearningPath.TwoFoundationsUnlock | components/LearningPathView.tsx:43-44 | corrected rule of the Findings row: once two foundations are completed, every card is open |
| LearningPath.AsWrittenLocksMore | components/LearningPathView.tsx:257-261 | the code locks whatever the corrected rule locks, and the two agree when no foundation has a stored 0 |
| LearningPath.CardClick | components/LearningPathView.tsx:55 | clicking opens the case iff the card is not locked (the code passes the as-written lock flag) |
| ScoreDashboard.ColorBands | components/ScoreDashboard.tsx:35-39 | emerald from 90, amber from 70, rose below, and a higher score never gets a worse band |
| ScoreDashboard.EarnedBadges | components/ScoreDashboard.tsx:42-49 | the earned badges are an order-preserving selection of the catalogue, exactly those whose rule holds |
| ScoreDashboard.OnlyThreeBadgesAwardable | components/ScoreDashboard.tsx:42-49 | only b1, b2 and b5 can be earned |
| ScoreDashboard.EarnedIff | components/ScoreDashboard.tsx:42-49 | a catalogue badge is earned iff its rule holds |
| ScoreDashboard.CatalogueAwards | components/ScoreDashboard.tsx:42-49 | b1 iff accuracy > 90, b2 iff communication > 95, b5 iff efficiency > 90, never b3 or b4 |
| ScoreDashboard.ShareNeedsABadge | components/ScoreDashboard.tsx:288-290 | sharing is enabled iff some badge is earned |
| ScoreDashboard.ReflectionCoach.constructor | components/ScoreDashboard.tsx:13-20 | the dashboard starts on the reflection step with the coach's opening line |
| ScoreDashboard.ReflectionCoach.Type | components/ScoreDashboard.tsx:16 | only the input changes |
| ScoreDashboard.ReflectionCoach.SendReflection | components/ScoreDashboard.tsx:22-28 | a blank reflection changes nothing; otherwise it is appended, the input cleared, and a reply scheduled |
| ScoreDashboard.ReflectionCoach.CoachResponds | components/ScoreDashboard.tsx:29-32 | the reply appends one coach line and the reflection is done |
| ScoreDashboard.ReflectionCoach.Skip | components/ScoreDashboard.tsx:64 | skipping moves to the score step |
| ScoreDashboard.ReflectionCoach.SeeReport | components/ScoreDashboard.tsx:99-100 | the report button, shown once done, moves to the score step |
| Leaderboard.Insert | components/LeaderboardView.tsx:14 | inserting into a ranked list keeps it ranked and adds exactly the user |
| Leaderboard.SortByScore | components/LeaderboardView.tsx:14 | the sort gives a permutation, highest score first |
| Leaderboard.AllUsersRanked | components/LeaderboardView.tsx:14 | the combined list is ranked and is the other users plus the current user |
| Leaderboard.AllUsersMeOnce | components/LeaderboardView.tsx:14 | the current user's id appears exactly once |
| Leaderboard.FilteredUsers | components/LeaderboardView.tsx:16-25 | Global shows all; Hospital keeps inst-1, the current user and nurses, in order; Class keeps even positions |
| Leaderboard.HospitalKeepsMe | components/LeaderboardView.tsx:19 | the hospital tab always lists the current user |
| Leaderboard.RankBadgeOf | components/LeaderboardView.tsx:29-34 | ranks 0-2 get medals 1-3 |
| Leaderboard.RankLabelReadsBack | components/LeaderboardView.tsx:33 | any other rank reads "#" and then rank+1 |
| Leaderboard.BarWidth | components/LeaderboardView.tsx:137 | the bar is at most 100%, not negative for a non-negative score, and full from 20000 points |
| Leaderboard.BarWidthBounds | components/LeaderboardView.tsx:137 | the bar is at most 100%, full from 20000 points, empty at 0, and grows with the score |
| Leaderboard.Specialties | components/LeaderboardView.tsx:37-41 | each role has two specialty labels |
| Leaderboard.SpecialtiesDistinct | components/LeaderboardView.tsx:37-41 | no label is shared between roles |
| JobsView.FilteredJobs | components/JobsView.tsx:108-111 | skills mode drops jobs under 60 and keeps the rest in order; all mode keeps every job |
| JobsView.HighMatchesAlwaysListed | components/JobsView.tsx:208 | a high match (at least 70) is listed in either mode |
| JobsView.SelectedJob | components/JobsView.tsx:105 | the detail job has the selected id; none when nothing is selected |
| JobsView.JobBoard.constructor | components/JobsView.tsx:101-103 | the board starts in skills mode with no selection and default filters |
| JobsView.JobBoard.SelectJob | components/JobsView.tsx:213 | only the selection changes |
| JobsView.JobBoard.SetMatchMode | components/JobsView.tsx:183-189 | only the mode changes |
| JobsView.JobBoard.SetFilters | components/JobsView.tsx:138-168 | the filter values are stored but neither the list nor the detail changes |

## Left out

- The language-model calls (chat, content generation, image generation) are replaced by
  their results, which are passed in as parameters (`Reply`, `model`, `parse`, `evaluator`).
  Prompt texts are opaque. `JSON.parse(...) as SimulationScore` can yield an object with
  missing or ill-typed fields; the `evaluator` parameter returns only well-formed scores, so
  such partial grades are not modelled. Likewise `parse` yields only well-formed actions:
  a reply that parses to `null`, or to an object without `type`, is returned by
  `getAutoPilotAction` (services/geminiService.ts:111-127) and then matches no case of the
  switch at App.tsx:118-134 or throws into the catch at App.tsx:135-141; that path is not
  modelled.
- Browser I/O is left out: `localStorage` reads and writes, `FileReader`, speech recognition
  and synthesis, scrolling, `alert` and `confirm`. Saved scores, file contents and
  confirmations are parameters.
- Timers and effects are discrete steps. Each `await`, interval tick and effect run is one
  method call. There is no concurrency.
- `Date.now()` is a `now` parameter. Ids built from it are assumed fresh.
- Fixture texts of the mock chats, posts, users and jobs are parameters. Only the badge
  catalogue, the tracks, the seed comments and the quick tests are spelled out.
- The React state of each screen is grouped into a few records (`State()`), and
  presentation-only state is omitted: dropdowns, hover, the lightbox, voice flags and tab
  panes that change no rule.
- `handleCreateCustomCase`, `handleAskTutor`, `handleInterpretResult`,
  `handleNoteAnalysis`, `handleReflection` and `handlePlayScenarioFromFeed` in App.tsx only
  pass model results through. They are not part of this model.
- Text.ToLower and Text.ToUpper: `toLowerCase` and `toUpperCase` are modelled for ASCII
  letters only.
- LearningPath.AccuracyMetric and LearningPath.EfficiencyMetric: the ×0.95 and ×1.05
  floating-point products are exact rationals rounded with `RoundDiv`. Only the caps and
  bounds are proved.
- Leaderboard.BarWidth: computed on exact reals, not on doubles.
- Leaderboard.SortByScore: the ranking and the permutation are proved; the stability of
  `Array.prototype.sort` is not.
- Collections.ToggleTwice: when the id was present, two toggles move it to the end, so only
  the members are restored, not the order.
- CaseDetailView.HeartRateAlarming and CaseDetailView.SaturationAlarming state the red
  highlighting (heart rate above 100, saturation below 94) as predicates without a separate
  contract.
- ChatInterface.FormatTime takes a `nat`: the countdown never goes negative
  (ChatInterface.ChatPanel.Tick), so JavaScript's remainder on negative numbers never
  arises.
- App.AutoPilotMove and App.Simulation.CompleteAutoPilotTurn ask for the move on the history
  as the controller writes it, with the patient labelled "MODEL". The corrected labels
  (App.ProtocolLabel) serve only to state the finding below.
- GeminiService.PatientSimulator: `turnCount` is never incremented anywhere in the source;
  the model keeps it at 0.
- GeminiService.PatientSimulator.StartSession: the client is created once per process. The
  model reads a fixed `apiKeySet` flag instead of a cached client.

## Findings

| source | as written | input that shows it | evidently intended | confidence | as-written member | corrected member |
|---|---|---|---|---|---|---|
| App.tsx:116 | the auto-pilot history labels every sender with its upper-cased value, so a patient line reads "[MODEL]" | a session whose transcript holds one patient line | the labels the auto-pilot prompt defines (services/geminiService.ts:88-91): "[PATIENT]" for the patient | not executed; high | App.HistoryAsWrittenMislabelsPatient | App.HistoryFollowsProtocol |
| components/LearningPathView.tsx:257-261 | core rotations unlock when two foundations have a truthy stored score, so a stored 0 does not count, although the card shows as completed (components/LearningPathView.tsx:43-44) | foundations a and b finished with scores 0 and 80; or both finished with non-zero scores and then a re-taken with 0 | count foundations that are completed (a score is stored), so recording a score never relocks | not executed; medium | LearningPath.ZeroScoreKeepsCoreLocked | LearningPath.RecordingNeverRelocks |
