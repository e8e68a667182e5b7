/** The conversation store and the send orchestration of the chat page:
    a most-recent-first list of conversations, the current conversation, the
    selected model, and the handler that runs one send from the user's text
    to the assistant's reply. */
module ChatApp {
  import opened Wrappers
  import opened ChatTypes
  import Backend
  import GroqApi

  /** A titled thread of messages. */
  datatype Conversation = Conversation(id: nat, title: string, messages: seq<Message>, timestamp: int)

  const NewChatTitle := "New Chat"
  const Apology := "Sorry bro, permintaanmu belum dapat di proses. Coba lagi nanti ya!"
  const TitleLimit: nat := 30
  const Ellipsis := "..."

  /** The title made from a conversation's first message: the text itself when
      it has at most 30 characters, else its first 30 characters and `...`. */
  function Title(text: string): (t: string)
    ensures |t| <= TitleLimit + |Ellipsis|
    ensures |text| <= TitleLimit ==> t == text
    ensures |text| > TitleLimit ==> |t| == TitleLimit + |Ellipsis|
    ensures |text| > TitleLimit ==> t[..TitleLimit] == text[..TitleLimit] && t[TitleLimit..] == Ellipsis
  {
    if |text| > TitleLimit then text[..TitleLimit] + Ellipsis else text
  }

  /** A change to one conversation: a new title, or one more message at the end. */
  datatype Edit = SetTitle(title: string) | AppendMessage(message: Message)

  /** `{ ...conv, title }` or `{ ...conv, messages: [...conv.messages, m] }`. */
  function ApplyEdit(c: Conversation, e: Edit): (d: Conversation)
    ensures d.id == c.id && d.timestamp == c.timestamp
    ensures e.SetTitle? ==> d.title == e.title && d.messages == c.messages
    ensures e.AppendMessage? ==> d.title == c.title && d.messages == c.messages + [e.message]
  {
    match e
    case SetTitle(t) => c.(title := t)
    case AppendMessage(m) => c.(messages := c.messages + [m])
  }

  /** `prev.map(conv => conv.id === id ? edited : conv)`. */
  function Update(cs: seq<Conversation>, id: nat, e: Edit): (r: seq<Conversation>)
    ensures |r| == |cs|
  {
    if cs == [] then []
    else [if cs[0].id == id then ApplyEdit(cs[0], e) else cs[0]] + Update(cs[1..], id, e)
  }

  /** Updating by id edits exactly the conversations with that id, in place:
      every other position holds the same conversation as before. */
  lemma {:induction false} UpdateAt(cs: seq<Conversation>, id: nat, e: Edit, i: nat)
    requires i < |cs|
    ensures Update(cs, id, e)[i] == if cs[i].id == id then ApplyEdit(cs[i], e) else cs[i]
    ensures Update(cs, id, e)[i].id == cs[i].id
  {
    if i > 0 {
      UpdateAt(cs[1..], id, e, i - 1);
    }
  }

  /** `conversations.find(c => c.id === id)`. */
  function Find(cs: seq<Conversation>, id: nat): (r: Option<Conversation>)
    ensures r.Some? ==> r.value.id == id
  {
    if cs == [] then None
    else if cs[0].id == id then Some(cs[0])
    else Find(cs[1..], id)
  }

  /** `find` comes back empty exactly when no conversation has the id. */
  lemma {:induction false} FindAbsent(cs: seq<Conversation>, id: nat)
    ensures Find(cs, id).None? <==> forall i :: 0 <= i < |cs| ==> cs[i].id != id
  {
    if cs != [] {
      FindAbsent(cs[1..], id);
      if cs[0].id != id {
        assert forall i :: 1 <= i < |cs| ==> cs[i] == cs[1..][i - 1];
      }
    }
  }

  /** What `find` yields is an element of the list. */
  lemma {:induction false} FindIndex(cs: seq<Conversation>, id: nat) returns (i: nat)
    requires Find(cs, id).Some?
    ensures i < |cs| && cs[i] == Find(cs, id).value
  {
    if cs[0].id == id {
      i := 0;
    } else {
      var k := FindIndex(cs[1..], id);
      i := k + 1;
    }
  }

  /** `find` yields the first conversation with the id. */
  lemma {:induction false} FindFirst(cs: seq<Conversation>, id: nat, i: nat)
    requires i < |cs| && cs[i].id == id
    requires forall j :: 0 <= j < i ==> cs[j].id != id
    ensures Find(cs, id) == Some(cs[i])
  {
    if i > 0 {
      FindFirst(cs[1..], id, i - 1);
    }
  }

  /** Conversation identifiers are pairwise distinct. */
  predicate DistinctIds(cs: seq<Conversation>) {
    forall i, j :: 0 <= i < j < |cs| ==> cs[i].id != cs[j].id
  }

  /** The store's state at one moment. */
  datatype AppState = AppState(
    conversations: seq<Conversation>,
    currentId: Option<nat>,
    selectedModel: string,
    nextId: nat)

  /** Conversation ids are distinct and below the id counter, so the counter
      always yields a fresh id. */
  predicate WellFormed(s: AppState) {
    && DistinctIds(s.conversations)
    && (forall i :: 0 <= i < |s.conversations| ==> s.conversations[i].id < s.nextId)
  }

  /** With distinct ids, `find` yields the one conversation carrying the id. */
  lemma FindUnique(cs: seq<Conversation>, i: nat)
    requires DistinctIds(cs) && i < |cs|
    ensures Find(cs, cs[i].id) == Some(cs[i])
  {
    FindFirst(cs, cs[i].id, i);
  }

  /** The messages shown: those of the current conversation, or none. */
  function CurrentMessages(s: AppState): (ms: seq<Message>)
    ensures s.currentId.None? ==> ms == []
  {
    if s.currentId.Some? && Find(s.conversations, s.currentId.value).Some?
    then Find(s.conversations, s.currentId.value).value.messages
    else []
  }

  /** With distinct ids, a current id carried by a conversation shows exactly
      that conversation's messages. */
  lemma CurrentMessagesKnown(s: AppState, i: nat)
    requires DistinctIds(s.conversations) && i < |s.conversations|
    requires s.currentId == Some(s.conversations[i].id)
    ensures CurrentMessages(s) == s.conversations[i].messages
  {
    FindUnique(s.conversations, i);
  }

  /** A current id that no conversation carries shows no messages. */
  lemma CurrentMessagesUnknown(s: AppState)
    requires s.currentId.Some?
    requires forall i :: 0 <= i < |s.conversations| ==> s.conversations[i].id != s.currentId.value
    ensures CurrentMessages(s) == []
  {
    FindAbsent(s.conversations, s.currentId.value);
  }

  /** The guard of `handleSendMessage`: a send returns early when no model is
      selected or the adapter is not connected, and goes ahead otherwise. */
  function Ready(selectedModel: string, isConnected: bool): (r: bool)
    ensures selectedModel == "" ==> !r
    ensures !isConnected ==> !r
    ensures selectedModel != "" && isConnected ==> r
  {
    selectedModel != "" && isConnected
  }

  /** `canChat`: connected, a model selected and a non-empty catalog. Whenever
      the input is enabled the send guard passes; the guard itself does not
      look at the catalog. */
  function CanChat(isConnected: bool, selectedModel: string, models: seq<AIModel>): (r: bool)
    ensures r ==> Ready(selectedModel, isConnected)
    ensures |models| == 0 ==> !r
  {
    isConnected && selectedModel != "" && |models| > 0
  }

  /** The text of the assistant message once the adapter settles: the reply,
      or the fixed apology whatever the rejection said. */
  function AssistantText(reply: Result<string, string>): (r: string)
    ensures reply.Success? ==> r == reply.value
    ensures reply.Failure? ==> r == Apology
  {
    match reply
    case Success(text) => text
    case Failure(_) => Apology
  }

  /** Wired to the cloud adapter the page uses, an answer is never empty: a
      settled request gives the reply or its fallback, and any rejection gives
      the apology rather than the rejection text. */
  lemma AnswerFromCloudAdapter(response: Backend.Outcome<Option<string>>)
    ensures AssistantText(GroqApi.Settle(response)) != ""
    ensures !response.Ok? ==> AssistantText(GroqApi.Settle(response)) == Apology
    ensures response.Ok? ==> AssistantText(GroqApi.Settle(response)) == Backend.ReplyOrFallback(response.body)
  {
  }

  /** A fresh, empty conversation titled `New Chat` put first and made current. */
  function WithNewConversation(s: AppState, now: int): (r: AppState)
    ensures |r.conversations| == |s.conversations| + 1
    ensures r.conversations[0] == Conversation(s.nextId, NewChatTitle, [], now)
    ensures r.conversations[1..] == s.conversations
    ensures r.currentId == Some(s.nextId) && r.nextId > s.nextId
    ensures r.selectedModel == s.selectedModel
  {
    s.(conversations := [Conversation(s.nextId, NewChatTitle, [], now)] + s.conversations,
       currentId := Some(s.nextId),
       nextId := s.nextId + 1)
  }

  /** The conversation a send goes to: the current one, or a new one. */
  function Opened(s: AppState, now: int): (s1: AppState)
    ensures s1.currentId.Some? && s1.selectedModel == s.selectedModel
    ensures s.currentId.Some? ==> s1 == s
    ensures s.currentId.None? ==>
      && s1.conversations == [Conversation(s.nextId, NewChatTitle, [], now)] + s.conversations
      && s1.currentId == Some(s.nextId)
      && s1.nextId == s.nextId + 1
  {
    if s.currentId.None? then WithNewConversation(s, now) else s
  }

  /** Opening a new conversation keeps the store well formed. */
  lemma OpenedWellFormed(s: AppState, now: int)
    requires WellFormed(s)
    ensures WellFormed(Opened(s, now)) && Opened(s, now).nextId >= s.nextId
  {
    if s.currentId.None? {
      var cs := Opened(s, now).conversations;
      forall i, j | 0 <= i < j < |cs| ensures cs[i].id != cs[j].id {
        if i > 0 {
          assert cs[i] == s.conversations[i - 1];
        }
        assert cs[j] == s.conversations[j - 1];
      }
    }
  }

  /** The three list updates of one send, in order: append the user's
      message, retitle (when `retitle` holds a title), append the answer. */
  function Deliver(cs: seq<Conversation>, target: nat, user: Message, retitle: Option<string>,
                   answer: Message): (r: seq<Conversation>)
    ensures |r| == |cs|
  {
    var withUser := Update(cs, target, AppendMessage(user));
    var titled := if retitle.Some? then Update(withUser, target, SetTitle(retitle.value)) else withUser;
    Update(titled, target, AppendMessage(answer))
  }

  /** Only the conversations with id `target` change: they gain the user's
      message and the answer, in that order, and the new title if any. */
  lemma DeliverAt(cs: seq<Conversation>, target: nat, user: Message, retitle: Option<string>,
                  answer: Message, i: nat)
    requires i < |cs|
    ensures Deliver(cs, target, user, retitle, answer)[i] ==
      if cs[i].id == target
      then cs[i].(title := retitle.GetOr(cs[i].title), messages := cs[i].messages + [user, answer])
      else cs[i]
  {
    var withUser := Update(cs, target, AppendMessage(user));
    UpdateAt(cs, target, AppendMessage(user), i);
    var titled := if retitle.Some? then Update(withUser, target, SetTitle(retitle.value)) else withUser;
    if retitle.Some? {
      UpdateAt(withUser, target, SetTitle(retitle.value), i);
    }
    UpdateAt(titled, target, AppendMessage(answer), i);
  }

  /** Delivering keeps every conversation's id. */
  lemma DeliverKeepsIds(cs: seq<Conversation>, target: nat, user: Message, retitle: Option<string>,
                        answer: Message)
    ensures var r := Deliver(cs, target, user, retitle, answer);
      forall i :: 0 <= i < |r| ==> r[i].id == cs[i].id
  {
    forall i | 0 <= i < |cs| ensures Deliver(cs, target, user, retitle, answer)[i].id == cs[i].id {
      DeliverAt(cs, target, user, retitle, answer, i);
    }
  }

  /** One run of `handleSendMessage(content)` while the adapter reports
      `isConnected` and settles with `reply`: the new state, and the history
      handed to the adapter (none when the guard returns early). The title test
      and the history read the list as it was before the send. */
  function Send(s: AppState, content: string, isConnected: bool, reply: Result<string, string>,
                now: int, later: int): (r: (AppState, Option<seq<Message>>))
    ensures !Ready(s.selectedModel, isConnected) ==> r == (s, None)
    ensures Ready(s.selectedModel, isConnected) ==> r.1.Some? && |r.1.value| > 0
  {
    if !Ready(s.selectedModel, isConnected) then (s, None)
    else
      var s1 := Opened(s, now);
      var target := s1.currentId.value;
      var user := Message(s1.nextId, content, User, now, Some(s.selectedModel));
      var snapshot := Find(s.conversations, target);
      var retitle := if snapshot.None? || snapshot.value.messages == [] then Some(Title(content)) else None;
      var history := (if snapshot.Some? then snapshot.value.messages else []) + [user];
      var answer := Message(s1.nextId + 1, AssistantText(reply), Assistant, later, Some(s.selectedModel));
      (s1.(conversations := Deliver(s1.conversations, target, user, retitle, answer), nextId := s1.nextId + 2),
       Some(history))
  }

  /** The two messages one send adds: the user's text and then the assistant's
      answer, both tagged with the selected model. */
  predicate Exchange(ms: seq<Message>, content: string, model: string, reply: Result<string, string>) {
    && |ms| == 2
    && ms[0].role == User && ms[0].content == content && ms[0].model == Some(model)
    && ms[1].role == Assistant && ms[1].content == AssistantText(reply) && ms[1].model == Some(model)
  }

  /** A send keeps the store well formed, leaves the model selection alone,
      and ends with a current conversation. */
  lemma SendWellFormed(s: AppState, content: string, isConnected: bool, reply: Result<string, string>,
                       now: int, later: int)
    requires WellFormed(s)
    ensures var r := Send(s, content, isConnected, reply, now, later).0;
      WellFormed(r) && r.selectedModel == s.selectedModel && r.nextId >= s.nextId
    ensures Ready(s.selectedModel, isConnected) ==>
      Send(s, content, isConnected, reply, now, later).0.currentId ==
        (if s.currentId.None? then Some(s.nextId) else s.currentId)
  {
    if Ready(s.selectedModel, isConnected) {
      var s1 := Opened(s, now);
      OpenedWellFormed(s, now);
      var target := s1.currentId.value;
      var user := Message(s1.nextId, content, User, now, Some(s.selectedModel));
      var snapshot := Find(s.conversations, target);
      var retitle := if snapshot.None? || snapshot.value.messages == [] then Some(Title(content)) else None;
      var answer := Message(s1.nextId + 1, AssistantText(reply), Assistant, later, Some(s.selectedModel));
      var done := Deliver(s1.conversations, target, user, retitle, answer);
      assert Send(s, content, isConnected, reply, now, later).0 ==
        s1.(conversations := done, nextId := s1.nextId + 2);
      DeliverKeepsIds(s1.conversations, target, user, retitle, answer);
    }
  }

  /** With no current conversation, a send first puts a fresh `New Chat`
      conversation at the head and makes it current; that conversation gets
      the user's message and the answer, and is titled from the text, while
      the older conversations stay as they were and in order. The adapter sees
      the user's message alone. */
  lemma SendWithoutCurrent(s: AppState, content: string, isConnected: bool, reply: Result<string, string>,
                           now: int, later: int)
    requires WellFormed(s) && Ready(s.selectedModel, isConnected) && s.currentId.None?
    ensures var (r, history) := Send(s, content, isConnected, reply, now, later);
      && r.currentId == Some(s.nextId)
      && |r.conversations| == |s.conversations| + 1
      && r.conversations[1..] == s.conversations
      && r.conversations[0].id == s.nextId
      && (forall i :: 0 <= i < |s.conversations| ==> s.conversations[i].id != s.nextId)
      && r.conversations[0].title == Title(content)
      && Exchange(r.conversations[0].messages, content, s.selectedModel, reply)
      && history == Some([r.conversations[0].messages[0]])
  {
    var s1 := WithNewConversation(s, now);
    var target := s.nextId;
    var user := Message(s1.nextId, content, User, now, Some(s.selectedModel));
    var answer := Message(s1.nextId + 1, AssistantText(reply), Assistant, later, Some(s.selectedModel));
    assert Opened(s, now) == s1;
    FindAbsent(s.conversations, target);
    var done := Deliver(s1.conversations, target, user, Some(Title(content)), answer);
    assert [] + [user] == [user];
    assert Send(s, content, isConnected, reply, now, later) ==
      (s1.(conversations := done, nextId := s1.nextId + 2), Some([user]));
    DeliverAt(s1.conversations, target, user, Some(Title(content)), answer, 0);
    forall i | 1 <= i < |done| ensures done[i] == s.conversations[i - 1] {
      DeliverAt(s1.conversations, target, user, Some(Title(content)), answer, i);
    }
    assert done[1..] == s.conversations;
  }

  /** With a current conversation present in the list, a send appends the
      user's message and then the answer to that conversation only; its title
      is set from the text when it had no messages before the send and is kept
      otherwise; the list keeps its length and order. The adapter sees the
      earlier messages followed by the user's message. */
  lemma SendToCurrent(s: AppState, content: string, isConnected: bool, reply: Result<string, string>,
                      now: int, later: int, i: nat)
    requires WellFormed(s) && Ready(s.selectedModel, isConnected)
    requires i < |s.conversations| && s.currentId == Some(s.conversations[i].id)
    ensures var (r, history) := Send(s, content, isConnected, reply, now, later);
      var before := s.conversations[i];
      && r.currentId == s.currentId
      && |r.conversations| == |s.conversations|
      && (forall j :: 0 <= j < |s.conversations| && j != i ==> r.conversations[j] == s.conversations[j])
      && r.conversations[i].id == before.id
      && r.conversations[i].timestamp == before.timestamp
      && r.conversations[i].title == (if before.messages == [] then Title(content) else before.title)
      && |r.conversations[i].messages| == |before.messages| + 2
      && r.conversations[i].messages[..|before.messages|] == before.messages
      && Exchange(r.conversations[i].messages[|before.messages|..], content, s.selectedModel, reply)
      && history == Some(before.messages + [r.conversations[i].messages[|before.messages|]])
  {
    var before := s.conversations[i];
    var target := before.id;
    var user := Message(s.nextId, content, User, now, Some(s.selectedModel));
    var answer := Message(s.nextId + 1, AssistantText(reply), Assistant, later, Some(s.selectedModel));
    FindUnique(s.conversations, i);
    var retitle := if before.messages == [] then Some(Title(content)) else None;
    var done := Deliver(s.conversations, target, user, retitle, answer);
    assert Send(s, content, isConnected, reply, now, later) ==
      (s.(conversations := done, nextId := s.nextId + 2), Some(before.messages + [user]));
    forall j | 0 <= j < |s.conversations| && j != i ensures done[j] == s.conversations[j] {
      DeliverAt(s.conversations, target, user, retitle, answer, j);
    }
    DeliverAt(s.conversations, target, user, retitle, answer, i);
    assert done[i].messages[|before.messages|..] == [user, answer];
  }

  /** A current id that names no conversation (selection is not checked):
      the send changes no conversation, and the adapter sees the user's
      message alone. */
  lemma SendToUnknown(s: AppState, content: string, isConnected: bool, reply: Result<string, string>,
                      now: int, later: int)
    requires WellFormed(s) && Ready(s.selectedModel, isConnected)
    requires s.currentId.Some? && Find(s.conversations, s.currentId.value).None?
    ensures var (r, history) := Send(s, content, isConnected, reply, now, later);
      && r.conversations == s.conversations
      && r.currentId == s.currentId
      && history.Some? && |history.value| == 1
      && history.value[0].role == User && history.value[0].content == content
  {
    var target := s.currentId.value;
    var user := Message(s.nextId, content, User, now, Some(s.selectedModel));
    var answer := Message(s.nextId + 1, AssistantText(reply), Assistant, later, Some(s.selectedModel));
    assert Opened(s, now) == s;
    FindAbsent(s.conversations, target);
    var done := Deliver(s.conversations, target, user, Some(Title(content)), answer);
    assert [] + [user] == [user];
    assert Send(s, content, isConnected, reply, now, later) ==
      (s.(conversations := done, nextId := s.nextId + 2), Some([user]));
    forall j | 0 <= j < |s.conversations| ensures done[j] == s.conversations[j] {
      DeliverAt(s.conversations, target, user, Some(Title(content)), answer, j);
    }
    assert done == s.conversations;
  }

  /** The history handed to the adapter is the transcript shown before the
      send followed by the user's message, so the request carries the shown
      turns, reduced to role and content, and then the user's turn. */
  lemma SendHandsOverTranscript(s: AppState, content: string, isConnected: bool, reply: Result<string, string>,
                                now: int, later: int)
    requires WellFormed(s) && Ready(s.selectedModel, isConnected)
    ensures var history := Send(s, content, isConnected, reply, now, later).1;
      var shown := CurrentMessages(s);
      && history.Some? && |history.value| == |shown| + 1
      && history.value[..|shown|] == shown
      && history.value[|shown|].role == User && history.value[|shown|].content == content
      && Backend.Project(history.value) == Backend.Project(shown) + [ChatMessage(User, content)]
  {
    var s1 := Opened(s, now);
    var target := s1.currentId.value;
    var user := Message(s1.nextId, content, User, now, Some(s.selectedModel));
    var snapshot := Find(s.conversations, target);
    if s.currentId.None? {
      FindAbsent(s.conversations, target);
    }
    var earlier := if snapshot.Some? then snapshot.value.messages else [];
    assert earlier == CurrentMessages(s);
    assert Send(s, content, isConnected, reply, now, later).1 == Some(earlier + [user]);
    Backend.ProjectAppend(earlier, [user]);
    assert [user][1..] == [];
    assert Backend.Project([user]) == [ChatMessage(User, content)];
    assert (earlier + [user])[..|earlier|] == earlier;
  }

  /** What the page shows after a send: the messages shown before, then the
      user's message and the answer. */
  lemma SendExtendsTranscript(s: AppState, content: string, isConnected: bool, reply: Result<string, string>,
                              now: int, later: int)
    requires WellFormed(s) && Ready(s.selectedModel, isConnected)
    requires s.currentId.None? || Find(s.conversations, s.currentId.value).Some?
    ensures var r := Send(s, content, isConnected, reply, now, later).0;
      var shown := CurrentMessages(s);
      && |CurrentMessages(r)| == |shown| + 2
      && CurrentMessages(r)[..|shown|] == shown
      && Exchange(CurrentMessages(r)[|shown|..], content, s.selectedModel, reply)
  {
    var r := Send(s, content, isConnected, reply, now, later).0;
    SendWellFormed(s, content, isConnected, reply, now, later);
    if s.currentId.None? {
      SendWithoutCurrent(s, content, isConnected, reply, now, later);
      FindUnique(r.conversations, 0);
    } else {
      var i := FindIndex(s.conversations, s.currentId.value);
      SendToCurrent(s, content, isConnected, reply, now, later, i);
      FindUnique(r.conversations, i);
    }
  }

  /** The page's component state. */
  class ChatPage {
    var conversations: seq<Conversation>
    var currentId: Option<nat>
    var selectedModel: string
    var nextId: nat

    ghost function State(): AppState
      reads this
    {
      AppState(conversations, currentId, selectedModel, nextId)
    }

    ghost predicate Valid()
      reads this
    {
      WellFormed(State())
    }

    constructor ()
      ensures Valid()
      ensures conversations == [] && currentId.None? && selectedModel == ""
    {
      conversations, currentId, selectedModel, nextId := [], None, "", 0;
    }

    /** `createNewConversation`: a fresh, empty `New Chat` conversation is put
        first and made current; the others keep their contents and order. */
    method CreateNewConversation(now: int)
      requires Valid()
      modifies this
      ensures Valid()
      ensures State() == WithNewConversation(old(State()), now)
      ensures conversations == [Conversation(old(nextId), NewChatTitle, [], now)] + old(conversations)
      ensures currentId == Some(old(nextId))
      ensures forall i :: 0 <= i < |old(conversations)| ==> old(conversations)[i].id != old(nextId)
      ensures selectedModel == old(selectedModel)
    {
      var created := Conversation(nextId, NewChatTitle, [], now);
      conversations := [created] + conversations;
      currentId := Some(created.id);
      nextId := nextId + 1;
    }

    /** `handleSelectConversation`: the given id becomes current; nothing
        else changes. */
    method HandleSelectConversation(id: nat)
      requires Valid()
      modifies this
      ensures Valid()
      ensures currentId == Some(id)
      ensures conversations == old(conversations) && selectedModel == old(selectedModel) && nextId == old(nextId)
    {
      currentId := Some(id);
    }

    /** The model picker's change handler. */
    method ChangeModel(model: string)
      requires Valid()
      modifies this
      ensures Valid()
      ensures selectedModel == model
      ensures conversations == old(conversations) && currentId == old(currentId) && nextId == old(nextId)
    {
      selectedModel := model;
    }

    /** The default-model effect: when models are offered and none is
        selected, the first offered model is selected. */
    method ApplyDefaultModel(models: seq<AIModel>)
      requires Valid()
      modifies this
      ensures Valid()
      ensures selectedModel == (if |models| > 0 && old(selectedModel) == "" then models[0].id else old(selectedModel))
      ensures conversations == old(conversations) && currentId == old(currentId) && nextId == old(nextId)
    {
      if |models| > 0 && selectedModel == "" {
        selectedModel := models[0].id;
      }
    }

    /** `handleSendMessage(content)` while the adapter reports `isConnected`
        and settles with `reply`; `history` is what the adapter is given. */
    method HandleSendMessage(content: string, isConnected: bool, reply: Result<string, string>,
                             now: int, later: int)
      returns (history: Option<seq<Message>>)
      requires Valid()
      modifies this
      ensures Valid()
      ensures (State(), history) == Send(old(State()), content, isConnected, reply, now, later)
    {
      if selectedModel == "" || !isConnected {
        return None;
      }
      ghost var before := State();
      var snapshot := conversations;
      if currentId.None? {
        CreateNewConversation(now);
      }
      ghost var started := State();
      assert started == Opened(before, now);
      var target := currentId.value;
      var user := Message(nextId, content, User, now, Some(selectedModel));
      conversations := Update(conversations, target, AppendMessage(user));
      var current := Find(snapshot, target);
      ghost var retitle: Option<string> := None;
      if current.None? || current.value.messages == [] {
        retitle := Some(Title(content));
        conversations := Update(conversations, target, SetTitle(Title(content)));
      }
      history := Some((if current.Some? then current.value.messages else []) + [user]);
      var answer := Message(nextId + 1, AssistantText(reply), Assistant, later, Some(selectedModel));
      conversations := Update(conversations, target, AppendMessage(answer));
      nextId := nextId + 2;
      assert conversations == Deliver(started.conversations, target, user, retitle, answer);
      assert (State(), history) == Send(before, content, isConnected, reply, now, later);
      SendWellFormed(before, content, isConnected, reply, now, later);
    }
  }
}
