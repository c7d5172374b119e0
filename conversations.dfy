/**
 * The page state: the list of conversations, the current conversation's id and the API key,
 * with the handlers that add a message, open a new conversation and rename one.
 */
module Conversations {
  import opened Wrappers
  import Seqs

  datatype Role = User | Assistant

  /** A chat message; `id` is the timestamp string taken when it was added. */
  datatype Message = Message(id: string, role: Role, content: string)

  datatype Conversation = Conversation(id: string, title: string, messages: seq<Message>)

  /** The title of a conversation nobody has written to yet. */
  const NewTitle := "New conversation"

  /** The id of the conversation the page starts with. */
  const InitialId := "1"

  /** The page starts with one empty conversation. */
  const InitialConversations: seq<Conversation> := [Conversation(InitialId, NewTitle, [])]

  /** The first conversation whose id is `id`, absent when there is none. */
  function FindConversation(convs: seq<Conversation>, id: string): (r: Option<Conversation>)
    ensures r.None? <==> forall i | 0 <= i < |convs| :: convs[i].id != id
    ensures r.Some? ==> exists k | 0 <= k < |convs| ::
      convs[k] == r.value && r.value.id == id && forall j | 0 <= j < k :: convs[j].id != id
  {
    Seqs.Find(convs, (c: Conversation) => c.id == id)
  }

  /** The new value of the list after `addMessage`: the message goes to the end of every conversation with the current id. */
  function AppendMessage(convs: seq<Conversation>, currentId: string, role: Role, content: string, messageId: string)
    : (r: seq<Conversation>)
    ensures |r| == |convs|
    ensures forall i | 0 <= i < |convs| :: r[i].id == convs[i].id && r[i].title == convs[i].title
    ensures forall i | 0 <= i < |convs| && convs[i].id == currentId ::
      r[i].messages == convs[i].messages + [Message(messageId, role, content)]
    ensures forall i | 0 <= i < |convs| && convs[i].id != currentId :: r[i] == convs[i]
  {
    Seqs.Map(convs, (c: Conversation) =>
      if c.id == currentId then c.(messages := c.messages + [Message(messageId, role, content)]) else c)
  }

  /** The new value of the list after `updateConversationTitle`: every conversation with id `id` gets `title`. */
  function Retitle(convs: seq<Conversation>, id: string, title: string): (r: seq<Conversation>)
    ensures |r| == |convs|
    ensures forall i | 0 <= i < |convs| :: r[i].id == convs[i].id && r[i].messages == convs[i].messages
    ensures forall i | 0 <= i < |convs| && convs[i].id == id :: r[i].title == title
    ensures forall i | 0 <= i < |convs| && convs[i].id != id :: r[i] == convs[i]
  {
    Seqs.Map(convs, (c: Conversation) => if c.id == id then c.(title := title) else c)
  }

  /** A change that keeps every id keeps the result of every lookup by id, changed the same way. */
  lemma {:induction false} FindAfterIdPreservingChange(
    convs: seq<Conversation>, changed: seq<Conversation>, id: string, f: Conversation -> Conversation)
    requires |changed| == |convs|
    requires forall i | 0 <= i < |convs| :: changed[i] == f(convs[i]) && changed[i].id == convs[i].id
    ensures FindConversation(changed, id) ==
      match FindConversation(convs, id)
      case None => None
      case Some(c) => Some(f(c))
  {
    match FindConversation(convs, id)
    case None =>
    case Some(c) =>
      var k :| 0 <= k < |convs| && convs[k] == c && c.id == id && forall j | 0 <= j < k :: convs[j].id != id;
      Seqs.FindFirst(changed, (x: Conversation) => x.id == id, k);
  }

  /** After `addMessage` the current conversation is the one it was, with the message at the end. */
  lemma CurrentAfterAppend(convs: seq<Conversation>, currentId: string, role: Role, content: string, messageId: string)
    ensures FindConversation(AppendMessage(convs, currentId, role, content, messageId), currentId) ==
      match FindConversation(convs, currentId)
      case None => None
      case Some(c) => Some(c.(messages := c.messages + [Message(messageId, role, content)]))
  {
    var f := (c: Conversation) =>
      if c.id == currentId then c.(messages := c.messages + [Message(messageId, role, content)]) else c;
    FindAfterIdPreservingChange(convs, AppendMessage(convs, currentId, role, content, messageId), currentId, f);
  }

  /** After renaming conversation `id`, a lookup by `id` finds the conversation it found before, renamed. */
  lemma FindAfterRetitle(convs: seq<Conversation>, id: string, title: string)
    ensures FindConversation(Retitle(convs, id, title), id) ==
      match FindConversation(convs, id)
      case None => None
      case Some(c) => Some(c.(title := title))
  {
    var f := (c: Conversation) => if c.id == id then c.(title := title) else c;
    FindAfterIdPreservingChange(convs, Retitle(convs, id, title), id, f);
  }

  /** Renaming twice with the same title is renaming once. */
  lemma RetitleIdempotent(convs: seq<Conversation>, id: string, title: string)
    ensures Retitle(Retitle(convs, id, title), id, title) == Retitle(convs, id, title)
  {
    var once := Retitle(convs, id, title);
    assert forall i | 0 <= i < |once| :: Retitle(once, id, title)[i] == once[i];
  }

  /**
   * A new conversation with an id no conversation has becomes the one the lookup finds; with an id
   * already in use the lookup keeps finding the older conversation, since the new one is appended.
   */
  lemma FindAfterCreate(convs: seq<Conversation>, newId: string)
    ensures var r := FindConversation(convs + [Conversation(newId, NewTitle, [])], newId);
      && (FindConversation(convs, newId).None? ==> r == Some(Conversation(newId, NewTitle, [])))
      && (FindConversation(convs, newId).Some? ==> r == FindConversation(convs, newId))
  {
    var all := convs + [Conversation(newId, NewTitle, [])];
    match FindConversation(convs, newId)
    case None =>
      Seqs.FindFirst(all, (x: Conversation) => x.id == newId, |convs|);
    case Some(c) =>
      var k :| 0 <= k < |convs| && convs[k] == c && c.id == newId && forall j | 0 <= j < k :: convs[j].id != newId;
      Seqs.FindFirst(all, (x: Conversation) => x.id == newId, k);
  }

  /** The page starts on its one empty conversation. */
  lemma InitialCurrentConversation()
    ensures FindConversation(InitialConversations, InitialId) == Some(Conversation(InitialId, NewTitle, []))
  {
    Seqs.FindFirst(InitialConversations, (x: Conversation) => x.id == InitialId, 0);
  }

  /** The page component's state and the handlers it passes to the sidebar, the chat pane and the key dialog. */
  class ChatState {
    var conversations: seq<Conversation>
    var currentConversationId: string
    var apiKey: string

    /** The state at first render. */
    constructor()
      ensures conversations == InitialConversations
      ensures currentConversationId == InitialId
      ensures apiKey == ""
    {
      conversations := InitialConversations;
      currentConversationId := InitialId;
      apiKey := "";
    }

    /** `currentConversation`: the first conversation carrying the current id. */
    function CurrentConversation(): (r: Option<Conversation>)
      reads this
      ensures r.None? <==> forall i | 0 <= i < |conversations| :: conversations[i].id != currentConversationId
      ensures r.Some? ==> r.value in conversations && r.value.id == currentConversationId
      ensures r == FindConversation(conversations, currentConversationId)
    {
      FindConversation(conversations, currentConversationId)
    }

    /** `!!apiKey`: a string is truthy exactly when it is not empty. */
    function HasApiKey(): (r: bool)
      reads this
      ensures r <==> |apiKey| > 0
    {
      apiKey != ""
    }

    /** `addMessage`: appends the message to the current conversation; `messageId` stands for `Date.now()`. */
    method AddMessage(role: Role, content: string, messageId: string)
      modifies this
      ensures conversations == AppendMessage(old(conversations), currentConversationId, role, content, messageId)
      ensures currentConversationId == old(currentConversationId) && apiKey == old(apiKey)
    {
      conversations := AppendMessage(conversations, currentConversationId, role, content, messageId);
    }

    /** `createNewConversation`: appends an empty conversation and makes it current; `newId` stands for `Date.now()`. */
    method CreateNewConversation(newId: string)
      modifies this
      ensures conversations == old(conversations) + [Conversation(newId, NewTitle, [])]
      ensures currentConversationId == newId && apiKey == old(apiKey)
    {
      conversations := conversations + [Conversation(newId, NewTitle, [])];
      currentConversationId := newId;
    }

    /** `updateConversationTitle`: renames every conversation with id `id`. */
    method UpdateConversationTitle(id: string, title: string)
      modifies this
      ensures conversations == Retitle(old(conversations), id, title)
      ensures currentConversationId == old(currentConversationId) && apiKey == old(apiKey)
    {
      conversations := Retitle(conversations, id, title);
    }

    /** The sidebar's selection handler: makes `id` current. */
    method SelectConversation(id: string)
      modifies this
      ensures currentConversationId == id
      ensures conversations == old(conversations) && apiKey == old(apiKey)
    {
      currentConversationId := id;
    }

    /** The key dialog's save handler: stores the key. */
    method SaveApiKey(key: string)
      modifies this
      ensures apiKey == key
      ensures conversations == old(conversations) && currentConversationId == old(currentConversationId)
    {
      apiKey := key;
    }
  }
}
