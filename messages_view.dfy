/** Direct messages and community channels: building the chat list and its histories,
    sending a message, the tab and search filter, and the date dividers. */
module MessagesView {
  import opened Types
  import opened Text

  /** A chat line. Its `Date` timestamp is a millisecond count. */
  datatype DirectMessage = DirectMessage(
    id: string, senderId: string, text: string, timestamp: int, isRead: bool)

  datatype ChatKind = Dm | Channel

  datatype ChatSession = ChatSession(
    id: string,
    kind: ChatKind,
    participantId: Option<string>,
    communityId: Option<string>,
    lastMessage: Option<DirectMessage>,
    unreadCount: int)

  datatype Tab = ChatsTab | ChannelsTab

  const DmPrefix := "dm-"
  const ChannelPrefix := "ch-"
  const MessageIdPrefix := "msg-"
  /** Messages further apart than an hour are separated by a date divider. */
  const DividerGap := 3600000

  function DmChat(u: UserProfile, i: int): ChatSession {
    ChatSession(DmPrefix + u.id, Dm, Some(u.id), None, None, if i == 0 then 2 else 0)
  }

  function ChannelChat(c: Community, i: int): ChatSession {
    ChatSession(ChannelPrefix + c.id, Channel, None, Some(c.id), None, if i == 0 then 5 else 0)
  }

  function DmChats(others: seq<UserProfile>): seq<ChatSession> {
    seq(|others|, i requires 0 <= i < |others| => DmChat(others[i], i))
  }

  function ChannelChats(communities: seq<Community>): seq<ChatSession> {
    seq(|communities|, i requires 0 <= i < |communities| => ChannelChat(communities[i], i))
  }

  /** One direct chat per other user, then one channel per community; only the first of
      each kind starts with unread messages (2 and 5). */
  lemma AllChatsShape(users: seq<UserProfile>, meId: string, communities: seq<Community>)
    ensures var others := Others(users, meId);
      var all := DmChats(others) + ChannelChats(communities);
      && |all| == |others| + |communities|
      && (forall j :: 0 <= j < |others| ==>
            && all[j].kind == Dm && all[j].participantId == Some(others[j].id)
            && all[j].participantId != Some(meId)
            && all[j].unreadCount == (if j == 0 then 2 else 0))
      && (forall j :: |others| <= j < |all| ==>
            && all[j].kind == Channel && all[j].communityId == Some(communities[j - |others|].id)
            && all[j].unreadCount == (if j == |others| then 5 else 0))
  {
  }

  /** The chat's preview after its history is generated: the last message, and the unread
      count kept when positive. */
  function WithPreview(c: ChatSession, msgs: seq<DirectMessage>): ChatSession {
    if |msgs| > 0 then
      c.(lastMessage := Some(msgs[|msgs| - 1]), unreadCount := if c.unreadCount > 0 then c.unreadCount else 0)
    else c
  }

  /** The histories recorded chat by chat; a later chat with the same id overwrites. */
  function HistoryTable(chats: seq<ChatSession>, script: ChatSession -> seq<DirectMessage>)
    : map<string, seq<DirectMessage>>
    decreases |chats|
  {
    if chats == [] then map[]
    else
      var last := chats[|chats| - 1];
      HistoryTable(chats[..|chats| - 1], script)[last.id := script(last)]
  }

  /** Every chat has a history entry, and every entry belongs to some chat. */
  lemma {:induction false} HistoryTableDomain(chats: seq<ChatSession>, script: ChatSession -> seq<DirectMessage>)
    ensures forall i :: 0 <= i < |chats| ==> chats[i].id in HistoryTable(chats, script)
    ensures forall id :: id in HistoryTable(chats, script) ==> exists i :: 0 <= i < |chats| && chats[i].id == id
    decreases |chats|
  {
    if chats != [] {
      var init := chats[..|chats| - 1];
      var last := chats[|chats| - 1];
      HistoryTableDomain(init, script);
      assert HistoryTable(chats, script) == HistoryTable(init, script)[last.id := script(last)];
      forall i | 0 <= i < |chats|
        ensures chats[i].id in HistoryTable(chats, script)
      {
        if i < |init| {
          assert init[i] == chats[i];
        }
      }
      forall id | id in HistoryTable(chats, script)
        ensures exists i :: 0 <= i < |chats| && chats[i].id == id
      {
        if id != last.id {
          var i :| 0 <= i < |init| && init[i].id == id;
          assert chats[i] == init[i];
        }
      }
    }
  }

  /** With distinct ids, each chat's table entry is its own history. */
  lemma {:induction false} HistoryTableLookup(chats: seq<ChatSession>, script: ChatSession -> seq<DirectMessage>, j: int)
    requires forall a, b :: 0 <= a < b < |chats| ==> chats[a].id != chats[b].id
    requires 0 <= j < |chats|
    ensures chats[j].id in HistoryTable(chats, script)
    ensures HistoryTable(chats, script)[chats[j].id] == script(chats[j])
    decreases |chats|
  {
    var init := chats[..|chats| - 1];
    var last := chats[|chats| - 1];
    assert HistoryTable(chats, script) == HistoryTable(init, script)[last.id := script(last)];
    if j < |chats| - 1 {
      assert init[j] == chats[j];
      assert chats[j].id != last.id;
      HistoryTableLookup(init, script, j);
    }
  }

  /** `!prevMsg || msg.timestamp - prevMsg.timestamp > 3600000`. */
  predicate ShowDivider(msgs: seq<DirectMessage>, i: int)
    requires 0 <= i < |msgs|
  {
    i == 0 || msgs[i].timestamp - msgs[i - 1].timestamp > DividerGap
  }

  /** The first message always has a divider; a message appended more than an hour after
      the last one gets one, and one within the hour does not; earlier dividers stay. */
  lemma DividerOnAppend(msgs: seq<DirectMessage>, m: DirectMessage)
    ensures ShowDivider(msgs + [m], 0)
    ensures msgs != [] ==>
      (ShowDivider(msgs + [m], |msgs|) <==> m.timestamp > msgs[|msgs| - 1].timestamp + DividerGap)
    ensures forall i :: 0 <= i < |msgs| ==> (ShowDivider(msgs + [m], i) <==> ShowDivider(msgs, i))
  {
    assert forall i :: 0 <= i < |msgs| ==> (msgs + [m])[i] == msgs[i];
  }

  // ---- Chat list filter ----

  /** The name shown for a chat: the partner's or the community's, when it can be found. */
  function ChatName(c: ChatSession, users: seq<UserProfile>, communities: seq<Community>): Option<string> {
    if c.kind == Dm then
      var u := Find(users, (u: UserProfile) => Some(u.id) == c.participantId);
      if u.Some? then Some(u.value.name) else None
    else
      var g := Find(communities, (g: Community) => Some(g.id) == c.communityId);
      if g.Some? then Some(g.value.name) else None
  }

  predicate ChatListed(c: ChatSession, tab: Tab, query: string,
                       users: seq<UserProfile>, communities: seq<Community>) {
    && c.kind == (if tab == ChatsTab then Dm else Channel)
    && (query != "" ==>
          var name := ChatName(c, users, communities);
          name.Some? && Contains(ToLower(name.value), ToLower(query)))
  }

  /** The chats tab lists only direct chats and the channels tab only channels; a
      non-empty query further keeps the chats whose name contains it, ignoring case. */
  function FilteredChats(chats: seq<ChatSession>, tab: Tab, query: string,
                         users: seq<UserProfile>, communities: seq<Community>): (r: seq<ChatSession>)
    ensures IsSubsequence(r, chats)
    ensures forall i :: 0 <= i < |r| ==> r[i].kind == (if tab == ChatsTab then Dm else Channel)
    ensures query != "" ==>
      forall i :: 0 <= i < |r| ==>
        ChatName(r[i], users, communities).Some?
        && Contains(ToLower(ChatName(r[i], users, communities).value), ToLower(query))
    ensures forall i :: 0 <= i < |chats| && ChatListed(chats[i], tab, query, users, communities) ==> chats[i] in r
    ensures query == "" ==>
      forall i :: 0 <= i < |chats| && chats[i].kind == (if tab == ChatsTab then Dm else Channel) ==> chats[i] in r
  {
    var p := (c: ChatSession) => ChatListed(c, tab, query, users, communities);
    FilterIsSubsequence(chats, p);
    Filter(chats, p)
  }

  /** The `forEach` over the chats: records each chat's history and sets its preview. */
  method GenerateHistories(all: seq<ChatSession>, script: ChatSession -> seq<DirectMessage>)
    returns (built: seq<ChatSession>, table: map<string, seq<DirectMessage>>)
    ensures |built| == |all|
    ensures forall j :: 0 <= j < |all| ==> built[j] == WithPreview(all[j], script(all[j]))
    ensures table == HistoryTable(all, script)
  {
    built := [];
    table := map[];
    var k := 0;
    while k < |all|
      invariant 0 <= k <= |all|
      invariant |built| == k
      invariant forall j :: 0 <= j < k ==> built[j] == WithPreview(all[j], script(all[j]))
      invariant table == HistoryTable(all[..k], script)
    {
      var msgs := script(all[k]);
      ghost var prefix := all[..k + 1];
      assert prefix[..k] == all[..k] && prefix[k] == all[k];
      assert HistoryTable(prefix, script) == HistoryTable(all[..k], script)[all[k].id := msgs];
      table := table[all[k].id := msgs];
      built := built + [WithPreview(all[k], msgs)];
      k := k + 1;
    }
    assert all[..k] == all;
  }

  // ---- The view's state ----

  datatype InboxUi = InboxUi(tab: Tab, selectedChatId: Option<string>, inputText: string, searchQuery: string)

  datatype Inbox = Inbox(chats: seq<ChatSession>, messages: map<string, seq<DirectMessage>>, ui: InboxUi)

  /** The chat to open at start: the direct chat with the requested user, if there is one,
      on the chats tab; with no request, the first chat when none is selected yet. */
  function InitialSelection(ui: InboxUi, dms: seq<ChatSession>, all: seq<ChatSession>,
                            requested: Option<string>): (r: InboxUi)
    ensures r == ui.(selectedChatId := r.selectedChatId, tab := r.tab)
    ensures r.tab != ui.tab ==> r.tab == ChatsTab
    ensures r.selectedChatId != ui.selectedChatId ==>
      && r.selectedChatId.Some?
      && ((exists i :: 0 <= i < |dms| && dms[i].id == r.selectedChatId.value && dms[i].participantId == requested)
          || (|all| > 0 && r.selectedChatId.value == all[0].id))
  {
    if requested.Some? && requested.value != "" then
      var target := Find(dms, (c: ChatSession) => c.participantId == requested);
      if target.Some? then ui.(selectedChatId := Some(target.value.id), tab := ChatsTab) else ui
    else if |all| > 0 && (ui.selectedChatId.None? || ui.selectedChatId.value == "") then
      ui.(selectedChatId := Some(all[0].id))
    else ui
  }

  /** A requested user with a direct chat selects the first such chat on the chats tab. */
  lemma InitialSelectionFindsRequested(ui: InboxUi, dms: seq<ChatSession>, all: seq<ChatSession>,
                                       userId: string, j: int)
    requires userId != ""
    requires 0 <= j < |dms| && dms[j].participantId == Some(userId)
    requires forall k :: 0 <= k < j ==> dms[k].participantId != Some(userId)
    ensures InitialSelection(ui, dms, all, Some(userId)).selectedChatId == Some(dms[j].id)
    ensures InitialSelection(ui, dms, all, Some(userId)).tab == ChatsTab
  {
    var target := Find(dms, (c: ChatSession) => c.participantId == Some(userId));
    assert target.Some?;
    var i :| 0 <= i < |dms| && dms[i] == target.value && dms[i].participantId == Some(userId)
             && forall k :: 0 <= k < i ==> dms[k].participantId != Some(userId);
    assert i == j;
  }

  function NewDirectMessage(meId: string, text: string, now: int): DirectMessage {
    DirectMessage(MessageIdPrefix + IntToString(now), meId, text, now, true)
  }

  /** `chats.map(c => c.id === id ? {...c, lastMessage: m, unreadCount: 0} : c)`. */
  function MarkSent(chats: seq<ChatSession>, id: string, m: DirectMessage): (r: seq<ChatSession>)
    ensures |r| == |chats|
    ensures forall i :: 0 <= i < |chats| ==>
      r[i] == (if chats[i].id == id then chats[i].(lastMessage := Some(m), unreadCount := 0) else chats[i])
    decreases |chats|
  {
    if chats == [] then []
    else
      [if chats[0].id == id then chats[0].(lastMessage := Some(m), unreadCount := 0) else chats[0]]
      + MarkSent(chats[1..], id, m)
  }

  function HistoryOf(messages: map<string, seq<DirectMessage>>, id: string): seq<DirectMessage> {
    if id in messages then messages[id] else []
  }

  /** Sending the typed text to the selected chat. */
  function SendStep(s: Inbox, meId: string, now: int): Inbox {
    if IsBlank(s.ui.inputText) || s.ui.selectedChatId.None? || s.ui.selectedChatId.value == "" then s
    else
      var id := s.ui.selectedChatId.value;
      var m := NewDirectMessage(meId, s.ui.inputText, now);
      Inbox(MarkSent(s.chats, id, m), s.messages[id := HistoryOf(s.messages, id) + [m]],
            s.ui.(inputText := ""))
  }

  /** Blank input or no selected chat changes nothing. */
  lemma SendStepIgnored(s: Inbox, meId: string, now: int)
    requires IsBlank(s.ui.inputText) || s.ui.selectedChatId.None?
    ensures SendStep(s, meId, now) == s
  {
  }

  /** Otherwise the selected chat's history gains exactly the new message and every other
      history is unchanged, and the input is cleared. */
  lemma SendStepHistories(s: Inbox, meId: string, now: int, id: string)
    requires !IsBlank(s.ui.inputText) && s.ui.selectedChatId == Some(id) && id != ""
    ensures var t := SendStep(s, meId, now);
      var m := NewDirectMessage(meId, s.ui.inputText, now);
      && m.senderId == meId && m.text == s.ui.inputText
      && HistoryOf(t.messages, id) == HistoryOf(s.messages, id) + [m]
      && (forall other :: other != id ==> HistoryOf(t.messages, other) == HistoryOf(s.messages, other))
      && t.ui == s.ui.(inputText := "")
  {
  }

  /** ... and the selected chat's preview shows that message with nothing unread, while
      other chats are unchanged. */
  lemma SendStepPreviews(s: Inbox, meId: string, now: int, id: string, i: int)
    requires !IsBlank(s.ui.inputText) && s.ui.selectedChatId == Some(id) && id != ""
    requires 0 <= i < |s.chats|
    ensures var t := SendStep(s, meId, now);
      && |t.chats| == |s.chats|
      && (s.chats[i].id == id ==>
            && t.chats[i].lastMessage == Some(NewDirectMessage(meId, s.ui.inputText, now))
            && t.chats[i].unreadCount == 0
            && t.chats[i].(lastMessage := s.chats[i].lastMessage, unreadCount := s.chats[i].unreadCount)
               == s.chats[i])
      && (s.chats[i].id != id ==> t.chats[i] == s.chats[i])
  {
  }

  class MessageCenter {
    var chats: seq<ChatSession>
    var messages: map<string, seq<DirectMessage>>
    var ui: InboxUi
    const me: UserProfile

    function State(): Inbox
      reads this
    {
      Inbox(chats, messages, ui)
    }

    constructor (me: UserProfile)
      ensures State() == Inbox([], map[], InboxUi(ChatsTab, None, "", ""))
      ensures this.me == me
    {
      chats := [];
      messages := map[];
      ui := InboxUi(ChatsTab, None, "", "");
      this.me := me;
    }

    /** Builds the chat list, generates each chat's history with `script` (the scripted
        conversations), and makes the initial selection. */
    method Setup(users: seq<UserProfile>, communities: seq<Community>,
                 script: ChatSession -> seq<DirectMessage>, requested: Option<string>)
      modifies this
      ensures var all := DmChats(Others(users, me.id)) + ChannelChats(communities);
        && |chats| == |all|
        && (forall j :: 0 <= j < |all| ==> chats[j] == WithPreview(all[j], script(all[j])))
        && messages == HistoryTable(all, script)
        && ui == InitialSelection(old(ui), DmChats(Others(users, me.id)), all, requested)
    {
      var dms := DmChats(Others(users, me.id));
      var all := dms + ChannelChats(communities);
      chats, messages := GenerateHistories(all, script);
      ui := InitialSelection(ui, dms, all, requested);
    }

    method TypeMessage(text: string)
      modifies this
      ensures State() == old(State()).(ui := old(ui).(inputText := text))
    {
      ui := ui.(inputText := text);
    }

    method Search(query: string)
      modifies this
      ensures State() == old(State()).(ui := old(ui).(searchQuery := query))
    {
      ui := ui.(searchQuery := query);
    }

    method SelectChat(id: string)
      modifies this
      ensures State() == old(State()).(ui := old(ui).(selectedChatId := Some(id)))
    {
      ui := ui.(selectedChatId := Some(id));
    }

    method SwitchTab(tab: Tab)
      modifies this
      ensures State() == old(State()).(ui := old(ui).(tab := tab))
    {
      ui := ui.(tab := tab);
    }

    method SendMessage(now: int)
      modifies this
      ensures State() == SendStep(old(State()), me.id, now)
    {
      if !IsBlank(ui.inputText) && ui.selectedChatId.Some? && ui.selectedChatId.value != "" {
        var id := ui.selectedChatId.value;
        var m := NewDirectMessage(me.id, ui.inputText, now);
        messages := messages[id := HistoryOf(messages, id) + [m]];
        chats := MarkSent(chats, id, m);
        ui := ui.(inputText := "");
      }
    }

    /** The chat list as currently filtered. */
    function ShownChats(users: seq<UserProfile>, communities: seq<Community>): (r: seq<ChatSession>)
      reads this
      ensures IsSubsequence(r, chats)
      ensures forall i :: 0 <= i < |r| ==> r[i].kind == (if ui.tab == ChatsTab then Dm else Channel)
    {
      FilteredChats(chats, ui.tab, ui.searchQuery, users, communities)
    }
  }
}
