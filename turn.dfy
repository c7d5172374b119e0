/**
 * One turn of the chat pane: the submit handler's guards, the conversation title, the request built
 * from the history, the mapping of the provider's reply to the assistant's message, and the order of
 * the calls back into the page state.
 */
module Turn {
  import opened Wrappers
  import Seqs
  import Text
  import opened Conversations

  /** A title keeps at most this many characters of the first message. */
  const TitleLimit := 30

  /** Appended to a title that was cut. */
  const Ellipsis := "..."

  /** The shorter of two lengths. */
  function Min(a: nat, b: nat): nat {
    if a <= b then a else b
  }

  /** The title given to a conversation by its first message: the text, cut to 30 characters and marked when longer. */
  function Title(text: string): (r: string)
    ensures |r| <= TitleLimit + |Ellipsis|
    ensures text[..Min(|text|, TitleLimit)] <= r
    ensures |text| <= TitleLimit ==> r == text
    ensures |text| > TitleLimit ==> |r| == TitleLimit + |Ellipsis| && r[TitleLimit..] == Ellipsis
  {
    if |text| > TitleLimit then text[..TitleLimit] + Ellipsis else text
  }

  /** One entry of the request's message list. */
  datatype ApiMessage = ApiMessage(role: Role, content: string)

  /** The messages the request carries: the history's roles and contents in order, then the new user text. */
  function ApiMessages(history: seq<Message>, text: string): (r: seq<ApiMessage>)
    ensures |r| == |history| + 1
    ensures forall i | 0 <= i < |history| :: r[i].role == history[i].role && r[i].content == history[i].content
    ensures r[|history|] == ApiMessage(User, text)
  {
    Seqs.Map(history, (m: Message) => ApiMessage(m.role, m.content)) + [ApiMessage(User, text)]
  }

  /** `conversation?.messages || []`: the open conversation's messages, or none when there is no open conversation. */
  function History(snapshot: Option<Conversation>): (r: seq<Message>)
    ensures snapshot.None? ==> r == []
    ensures snapshot.Some? ==> r == snapshot.value.messages
  {
    if snapshot.Some? then snapshot.value.messages else []
  }

  /** The chat-completions request: endpoint, bearer header and the fixed body fields. */
  datatype Request = Request(
    url: string,
    authorization: string,
    model: string,
    messages: seq<ApiMessage>,
    temperature: real,
    maxTokens: nat)

  const Endpoint := "https://api.openai.com/v1/chat/completions"

  /** The model the request names; the picker's selection does not reach the request. */
  const RequestModel := "gpt-4o"

  /** The scheme word that opens the authorization header. */
  const Bearer := "Bearer "

  /** The request `callOpenAI` sends: the key is read back from the header, and the messages are passed unchanged. */
  function ChatRequest(apiKey: string, messages: seq<ApiMessage>): (r: Request)
    ensures Bearer <= r.authorization && r.authorization[|Bearer|..] == apiKey
    ensures r.url == Endpoint && r.model == RequestModel && r.messages == messages
    ensures r.temperature == 0.7 && r.maxTokens == 1000
  {
    Request(Endpoint, Bearer + apiKey, RequestModel, messages, 0.7, 1000)
  }

  /** What the parsed body's `choices` holds: absent (reading index 0 throws a TypeError), or a first choice's content if any. */
  datatype Choices = ChoicesMissing(typeError: string) | ChoicesPresent(firstContent: Option<string>)

  /** The parsed JSON body: `error.message` if present, and the choices. */
  datatype Body = Body(errorMessage: Option<string>, choices: Choices)

  /** The outcome of the `fetch`: it throws (network failure, unparsable body), or yields a status and a parsed body. */
  datatype Reply = Thrown(reason: string) | Response(status: int, body: Body)

  /** `response.ok`. */
  predicate IsOk(status: int)
    ensures status == 401 || status == 429 ==> !IsOk(status)
  {
    200 <= status <= 299
  }

  const InvalidKeyReason := "Invalid API key. Please check your OpenAI API key."
  const RateLimitReason := "Rate limit exceeded. Please try again later."
  const GenericFailureReason := "Failed to get response from OpenAI"
  const EmptyReplyContent := "No response received"

  /** `value || fallback` on an optional string: an absent or empty value gives the fallback. */
  function OrElse(value: Option<string>, fallback: string): (r: string)
    ensures r == fallback || value == Some(r)
    ensures value.Some? && value.value != "" ==> r == value.value
    ensures fallback != "" ==> r != ""
  {
    if value.Some? && value.value != "" then value.value else fallback
  }

  /** The reason thrown for a response that is not ok. */
  function StatusReason(status: int, errorMessage: Option<string>): (r: string)
    ensures r != ""
    ensures status == 401 ==> r == InvalidKeyReason
    ensures status == 429 ==> r == RateLimitReason
    ensures status != 401 && status != 429 ==> errorMessage == Some(r) || r == GenericFailureReason
    ensures status != 401 && status != 429 && errorMessage.Some? && errorMessage.value != "" ==> r == errorMessage.value
    ensures status != 401 && status != 429 && (errorMessage.None? || errorMessage.value == "") ==> r == GenericFailureReason
  {
    if status == 401 then InvalidKeyReason
    else if status == 429 then RateLimitReason
    else OrElse(errorMessage, GenericFailureReason)
  }

  /** `callOpenAI`: the assistant's text, or the reason of the error it throws. */
  function Complete(reply: Reply): (r: Result<string, string>)
    ensures r.Success? <==> reply.Response? && IsOk(reply.status) && reply.body.choices.ChoicesPresent?
    ensures r.Success? ==> r.value != ""
    ensures r.Success? ==> r.value == EmptyReplyContent || reply.body.choices.firstContent == Some(r.value)
    ensures r.Success? && reply.body.choices.firstContent.Some? && reply.body.choices.firstContent.value != "" ==>
      r.value == reply.body.choices.firstContent.value
    ensures reply.Thrown? ==> r == Failure(reply.reason)
    ensures reply.Response? && IsOk(reply.status) && reply.body.choices.ChoicesMissing? ==>
      r == Failure(reply.body.choices.typeError)
    ensures reply.Response? && !IsOk(reply.status) ==> r == Failure(StatusReason(reply.status, reply.body.errorMessage))
  {
    match reply
    case Thrown(reason) => Failure(reason)
    case Response(status, body) =>
      if !IsOk(status) then Failure(StatusReason(status, body.errorMessage))
      else match body.choices
        case ChoicesMissing(typeError) => Failure(typeError)
        case ChoicesPresent(content) => Success(OrElse(content, EmptyReplyContent))
  }

  /** A rejected status is reported by status alone for 401 and 429, whatever the body says. */
  lemma KnownStatusIgnoresBody(status: int, a: Body, b: Body)
    requires status == 401 || status == 429
    ensures Complete(Response(status, a)) == Complete(Response(status, b))
    ensures Complete(Response(status, a)).Failure?
  {
  }

  const ErrorPrefix := "Error: "
  const ErrorSuffix := ". Please check your API key and try again."

  /** The assistant message that reports a failed turn. */
  function ErrorContent(reason: string): (r: string)
    ensures |r| == |ErrorPrefix| + |reason| + |ErrorSuffix|
    ensures ErrorPrefix <= r
    ensures r[|ErrorPrefix|..|ErrorPrefix| + |reason|] == reason
    ensures r[|ErrorPrefix| + |reason|..] == ErrorSuffix
  {
    ErrorPrefix + reason + ErrorSuffix
  }

  /** The reason an error message reports, read back from the message. */
  function ErrorReason(content: string): (r: Option<string>)
    ensures r.Some? ==> ErrorContent(r.value) == content
  {
    if |content| >= |ErrorPrefix| + |ErrorSuffix| && content[..|ErrorPrefix|] == ErrorPrefix
       && content[|content| - |ErrorSuffix|..] == ErrorSuffix
    then
      var reason := content[|ErrorPrefix|..|content| - |ErrorSuffix|];
      assert content == ErrorPrefix + reason + ErrorSuffix;
      Some(reason)
    else None
  }

  /** The error message gives back its reason: different reasons give different messages. */
  lemma {:induction false} ErrorReasonOfContent(reason: string)
    ensures ErrorReason(ErrorContent(reason)) == Some(reason)
  {
    var c := ErrorContent(reason);
    assert c[..|ErrorPrefix|] == ErrorPrefix;
    assert c[|c| - |ErrorSuffix|..] == ErrorSuffix;
    assert c[|ErrorPrefix|..|c| - |ErrorSuffix|] == reason;
  }

  /** The assistant message that ends an accepted turn: the reply text, or the error message. */
  function ReplyContent(reply: Reply): (r: string)
    ensures r != ""
    ensures Complete(reply).Success? ==> r == Complete(reply).value
    ensures Complete(reply).Failure? ==> ErrorReason(r) == Some(Complete(reply).error)
  {
    match Complete(reply)
    case Success(content) => content
    case Failure(reason) => ErrorReasonOfContent(reason); ErrorContent(reason)
  }

  /** A user-visible notice (a toast). */
  datatype Notice = KeyRequired | Succeeded | Failed(description: string)

  /** What a submit does outside the pane's own fields, in order. */
  datatype Effect =
    | Sent(role: Role, content: string)
    | Retitled(id: string, title: string)
    | Requested(request: Request)
    | Notified(notice: Notice)

  predicate IsSent(e: Effect) {
    e.Sent?
  }

  predicate IsRequest(e: Effect) {
    e.Requested?
  }

  predicate IsRetitle(e: Effect) {
    e.Retitled?
  }

  /** The title change a turn makes: only when the open conversation has no messages yet. */
  function TitleEffect(snapshot: Option<Conversation>, text: string): (r: seq<Effect>)
    ensures |r| <= 1
    ensures r != [] <==> snapshot.Some? && |snapshot.value.messages| == 0
    ensures r != [] ==> r[0] == Retitled(snapshot.value.id, Title(text))
  {
    if snapshot.Some? && |snapshot.value.messages| == 0 then [Retitled(snapshot.value.id, Title(text))] else []
  }

  /** The calls that close a turn: the reply's message and a success notice, or an error notice and the error message. */
  function ReplyEffects(reply: Reply): (r: seq<Effect>)
    ensures Complete(reply).Success? ==> r == [Sent(Assistant, ReplyContent(reply)), Notified(Succeeded)]
    ensures Complete(reply).Failure? ==> r == [Notified(Failed(Complete(reply).error)), Sent(Assistant, ReplyContent(reply))]
  {
    match Complete(reply)
    case Success(content) => [Sent(Assistant, content), Notified(Succeeded)]
    case Failure(reason) => [Notified(Failed(reason)), Sent(Assistant, ErrorContent(reason))]
  }

  /** The calls of an accepted turn on the trimmed text: the user message, the title, the request and the reply. */
  function ExchangeEffects(apiKey: string, snapshot: Option<Conversation>, text: string, reply: Reply): (r: seq<Effect>)
    ensures |r| == 4 + |TitleEffect(snapshot, text)|
    ensures r[0] == Sent(User, text)
    ensures r[|r| - 3] == Requested(ChatRequest(apiKey, ApiMessages(History(snapshot), text)))
    ensures r[|r| - 3 + 1..] == ReplyEffects(reply)
  {
    [Sent(User, text)] + TitleEffect(snapshot, text)
    + [Requested(ChatRequest(apiKey, ApiMessages(History(snapshot), text)))] + ReplyEffects(reply)
  }

  /**
   * `handleSubmit` as the sequence of its calls: nothing for blank input or while a reply is pending,
   * only a notice without a key, otherwise the calls of an accepted turn on the trimmed text.
   */
  function SubmitEffects(input: string, isLoading: bool, apiKey: string, snapshot: Option<Conversation>, reply: Reply)
    : (r: seq<Effect>)
    ensures Text.IsBlank(input) || isLoading ==> r == []
    ensures !Text.IsBlank(input) && !isLoading && apiKey == "" ==> r == [Notified(KeyRequired)]
    ensures !Text.IsBlank(input) && !isLoading && apiKey != "" ==> r == ExchangeEffects(apiKey, snapshot, Text.Trim(input), reply)
  {
    var text := Text.Trim(input);
    if text == [] || isLoading then []
    else if apiKey == "" then [Notified(KeyRequired)]
    else ExchangeEffects(apiKey, snapshot, text, reply)
  }

  /** Filtering four pieces laid end to end filters each piece. */
  lemma {:induction false} FilterFour<T>(a: seq<T>, b: seq<T>, c: seq<T>, d: seq<T>, p: T -> bool)
    ensures Seqs.Filter(a + b + c + d, p) == Seqs.Filter(a, p) + Seqs.Filter(b, p) + Seqs.Filter(c, p) + Seqs.Filter(d, p)
  {
    Seqs.FilterAppend(a + b + c, d, p);
    Seqs.FilterAppend(a + b, c, p);
    Seqs.FilterAppend(a, b, p);
  }

  /** An accepted turn sends exactly two messages: the user text, then one assistant message. */
  lemma {:induction false} ExchangeSendsTwice(apiKey: string, snapshot: Option<Conversation>, text: string, reply: Reply)
    ensures Seqs.Filter(ExchangeEffects(apiKey, snapshot, text, reply), IsSent)
      == [Sent(User, text), Sent(Assistant, ReplyContent(reply))]
  {
    var request := [Requested(ChatRequest(apiKey, ApiMessages(History(snapshot), text)))];
    FilterFour([Sent(User, text)], TitleEffect(snapshot, text), request, ReplyEffects(reply), IsSent);
  }

  /** An accepted turn makes one request, carrying the history's messages followed by the user text. */
  lemma {:induction false} ExchangeRequestsOnce(apiKey: string, snapshot: Option<Conversation>, text: string, reply: Reply)
    ensures Seqs.Filter(ExchangeEffects(apiKey, snapshot, text, reply), IsRequest)
      == [Requested(ChatRequest(apiKey, ApiMessages(History(snapshot), text)))]
  {
    var request := [Requested(ChatRequest(apiKey, ApiMessages(History(snapshot), text)))];
    FilterFour([Sent(User, text)], TitleEffect(snapshot, text), request, ReplyEffects(reply), IsRequest);
  }

  /** An accepted turn renames the conversation exactly when it has no messages yet, to the title of the text. */
  lemma {:induction false} ExchangeRetitlesFirstTurnOnly(
    apiKey: string, snapshot: Option<Conversation>, text: string, reply: Reply)
    ensures Seqs.Filter(ExchangeEffects(apiKey, snapshot, text, reply), IsRetitle)
      == if snapshot.Some? && |snapshot.value.messages| == 0 then [Retitled(snapshot.value.id, Title(text))] else []
  {
    var request := [Requested(ChatRequest(apiKey, ApiMessages(History(snapshot), text)))];
    FilterFour([Sent(User, text)], TitleEffect(snapshot, text), request, ReplyEffects(reply), IsRetitle);
  }

  /** The conversation list after the user message of a turn: the message is added, and the open conversation is renamed if it had no messages. */
  function AfterUserMessage(convs: seq<Conversation>, currentId: string, text: string, userMessageId: string)
    : (r: seq<Conversation>)
    ensures |r| == |convs|
  {
    var snapshot := FindConversation(convs, currentId);
    var afterUser := AppendMessage(convs, currentId, User, text, userMessageId);
    if snapshot.Some? && |snapshot.value.messages| == 0 then Retitle(afterUser, snapshot.value.id, Title(text))
    else afterUser
  }

  /** The conversation list after an accepted turn: the user message and title, then the assistant message. */
  function TurnConversations(
    convs: seq<Conversation>, currentId: string, text: string, content: string,
    userMessageId: string, replyMessageId: string): (r: seq<Conversation>)
    ensures |r| == |convs|
  {
    AppendMessage(AfterUserMessage(convs, currentId, text, userMessageId), currentId, Assistant, content, replyMessageId)
  }

  /** The user message and the title change no conversation whose id differs from the current id. */
  lemma AfterUserMessageKeepsOthers(convs: seq<Conversation>, currentId: string, text: string, userMessageId: string)
    ensures var r := AfterUserMessage(convs, currentId, text, userMessageId);
      forall i | 0 <= i < |convs| && convs[i].id != currentId :: r[i] == convs[i]
  {
    var snapshot := FindConversation(convs, currentId);
    if snapshot.Some? && |snapshot.value.messages| == 0 {
      assert snapshot.value.id == currentId;
    }
  }

  /**
   * The user message reaches every conversation carrying the current id, not only the open one, and on a
   * first message every one of them is renamed.
   */
  lemma AfterUserMessageEveryCurrent(
    convs: seq<Conversation>, currentId: string, text: string, userMessageId: string, c: Conversation)
    requires FindConversation(convs, currentId) == Some(c)
    ensures var r := AfterUserMessage(convs, currentId, text, userMessageId);
      forall i | 0 <= i < |convs| && convs[i].id == currentId ::
        r[i] == Conversation(convs[i].id, if |c.messages| == 0 then Title(text) else convs[i].title,
          convs[i].messages + [Message(userMessageId, User, text)])
  {
    assert c.id == currentId;
  }

  /** A turn changes no conversation whose id differs from the current id, and keeps their number and order. */
  lemma TurnKeepsOthers(
    convs: seq<Conversation>, currentId: string, text: string, content: string,
    userMessageId: string, replyMessageId: string)
    ensures var r := TurnConversations(convs, currentId, text, content, userMessageId, replyMessageId);
      && |r| == |convs|
      && forall i | 0 <= i < |convs| && convs[i].id != currentId :: r[i] == convs[i]
  {
    var snapshot := FindConversation(convs, currentId);
    if snapshot.Some? && |snapshot.value.messages| == 0 {
      assert snapshot.value.id == currentId;
    }
  }

  /** A turn gives both messages to every conversation carrying the current id, and renames each of them on a first message. */
  lemma TurnEveryCurrent(
    convs: seq<Conversation>, currentId: string, text: string, content: string,
    userMessageId: string, replyMessageId: string, c: Conversation)
    requires FindConversation(convs, currentId) == Some(c)
    ensures var r := TurnConversations(convs, currentId, text, content, userMessageId, replyMessageId);
      forall i | 0 <= i < |convs| && convs[i].id == currentId ::
        r[i] == Conversation(convs[i].id, if |c.messages| == 0 then Title(text) else convs[i].title,
          convs[i].messages + [Message(userMessageId, User, text)] + [Message(replyMessageId, Assistant, content)])
  {
    assert c.id == currentId;
  }

  /** Without an open conversation a turn changes no conversation. */
  lemma TurnWithoutCurrent(
    convs: seq<Conversation>, currentId: string, text: string, content: string,
    userMessageId: string, replyMessageId: string)
    requires FindConversation(convs, currentId).None?
    ensures TurnConversations(convs, currentId, text, content, userMessageId, replyMessageId) == convs
  {
    var afterUser := AppendMessage(convs, currentId, User, text, userMessageId);
    assert afterUser == convs;
  }

  /** After the user message the open conversation has it at the end, and is renamed if it had no messages. */
  lemma CurrentAfterUserMessage(
    convs: seq<Conversation>, currentId: string, text: string, userMessageId: string, c: Conversation)
    requires FindConversation(convs, currentId) == Some(c)
    ensures FindConversation(AfterUserMessage(convs, currentId, text, userMessageId), currentId)
      == Some(Conversation(
           c.id, if |c.messages| == 0 then Title(text) else c.title, c.messages + [Message(userMessageId, User, text)]))
  {
    var afterUser := AppendMessage(convs, currentId, User, text, userMessageId);
    var c1 := c.(messages := c.messages + [Message(userMessageId, User, text)]);
    assert FindConversation(afterUser, currentId) == Some(c1) by {
      CurrentAfterAppend(convs, currentId, User, text, userMessageId);
    }
    if |c.messages| == 0 {
      assert c.id == currentId;
      FindAfterRetitle(afterUser, c.id, Title(text));
    }
  }

  /** After the assistant message the open conversation has it at the end. */
  lemma CurrentAfterReply(
    convs: seq<Conversation>, currentId: string, content: string, replyMessageId: string, c: Conversation)
    requires FindConversation(convs, currentId) == Some(c)
    ensures FindConversation(AppendMessage(convs, currentId, Assistant, content, replyMessageId), currentId)
      == Some(Conversation(c.id, c.title, c.messages + [Message(replyMessageId, Assistant, content)]))
  {
    CurrentAfterAppend(convs, currentId, Assistant, content, replyMessageId);
  }

  /**
   * An accepted turn leaves the open conversation with exactly two more messages, the user's and then
   * the assistant's, and renamed to the title of the text when it had none.
   */
  lemma TurnExtendsCurrent(
    convs: seq<Conversation>, currentId: string, text: string, content: string,
    userMessageId: string, replyMessageId: string, c: Conversation)
    requires FindConversation(convs, currentId) == Some(c)
    ensures FindConversation(TurnConversations(convs, currentId, text, content, userMessageId, replyMessageId), currentId)
      == Some(Conversation(
           c.id,
           if |c.messages| == 0 then Title(text) else c.title,
           c.messages + [Message(userMessageId, User, text)] + [Message(replyMessageId, Assistant, content)]))
  {
    var title := if |c.messages| == 0 then Title(text) else c.title;
    var c1 := Conversation(c.id, title, c.messages + [Message(userMessageId, User, text)]);
    CurrentAfterUserMessage(convs, currentId, text, userMessageId, c);
    CurrentAfterReply(AfterUserMessage(convs, currentId, text, userMessageId), currentId, content, replyMessageId, c1);
  }

  /** Appending four pieces one by one is appending their concatenation. */
  lemma AppendFour<T>(s: seq<T>, a: seq<T>, b: seq<T>, c: seq<T>, d: seq<T>)
    ensures s + a + b + c + d == s + (a + b + c + d)
  {
  }

  /** The chat pane's own state: the text box and the pending flag, with the calls it has made so far. */
  class Composer {
    var input: string
    var isLoading: bool
    ghost var effects: seq<Effect>

    constructor()
      ensures input == "" && !isLoading && effects == []
    {
      input := "";
      isLoading := false;
      effects := [];
    }

    /** The text box's change handler. */
    method Edit(text: string)
      modifies this
      ensures input == text && isLoading == old(isLoading) && effects == old(effects)
    {
      input := text;
    }

    /**
     * `handleSubmit`, run to completion against the page state `app`. The provider's answer is `reply`;
     * `userMessageId` and `replyMessageId` stand for the two `Date.now()` readings.
     */
    method Submit(app: ChatState, reply: Reply, userMessageId: string, replyMessageId: string)
      modifies this, app
      ensures effects == old(effects)
        + SubmitEffects(old(input), old(isLoading), old(app.apiKey), old(app.CurrentConversation()), reply)
      ensures app.currentConversationId == old(app.currentConversationId) && app.apiKey == old(app.apiKey)
      ensures Text.IsBlank(old(input)) || old(isLoading) || !old(app.HasApiKey()) ==>
        input == old(input) && isLoading == old(isLoading) && app.conversations == old(app.conversations)
      ensures !Text.IsBlank(old(input)) && !old(isLoading) && old(app.HasApiKey()) ==>
        && input == ""
        && !isLoading
        && app.conversations == TurnConversations(old(app.conversations), old(app.currentConversationId),
             Text.Trim(old(input)), ReplyContent(reply), userMessageId, replyMessageId)
    {
      var text := Text.Trim(input);
      if text == [] || isLoading {
        return;
      }
      if !app.HasApiKey() {
        effects := effects + [Notified(KeyRequired)];
        return;
      }
      Accept(app, text, reply, userMessageId, replyMessageId);
    }

    /** The accepted path of `handleSubmit`: clears the box, sends the user message, asks the provider and sends its answer. */
    method Accept(app: ChatState, text: string, reply: Reply, userMessageId: string, replyMessageId: string)
      modifies this, app
      ensures effects == old(effects) + ExchangeEffects(old(app.apiKey), old(app.CurrentConversation()), text, reply)
      ensures app.currentConversationId == old(app.currentConversationId) && app.apiKey == old(app.apiKey)
      ensures input == "" && !isLoading
      ensures app.conversations == TurnConversations(old(app.conversations), old(app.currentConversationId),
        text, ReplyContent(reply), userMessageId, replyMessageId)
    {
      var snapshot := app.CurrentConversation();
      ghost var effects0 := effects;
      input := "";
      isLoading := true;
      SendUserMessage(app, snapshot, text, userMessageId);
      ghost var effects1 := effects;
      var request := ChatRequest(app.apiKey, ApiMessages(History(snapshot), text));
      effects := effects + [Requested(request)];
      SendReply(app, reply, replyMessageId);
      isLoading := false;
      AppendFour(effects0, [Sent(User, text)], TitleEffect(snapshot, text), [Requested(request)], ReplyEffects(reply));
    }

    /** Sends the user message, then renames the conversation if this is its first message. */
    method SendUserMessage(app: ChatState, snapshot: Option<Conversation>, text: string, userMessageId: string)
      requires snapshot == app.CurrentConversation()
      modifies this, app
      ensures effects == old(effects) + [Sent(User, text)] + TitleEffect(snapshot, text)
      ensures app.conversations == AfterUserMessage(old(app.conversations), app.currentConversationId, text, userMessageId)
      ensures app.currentConversationId == old(app.currentConversationId) && app.apiKey == old(app.apiKey)
      ensures input == old(input) && isLoading == old(isLoading)
    {
      app.AddMessage(User, text, userMessageId);
      effects := effects + [Sent(User, text)];
      if snapshot.Some? && |snapshot.value.messages| == 0 {
        var title := Title(text);
        app.UpdateConversationTitle(snapshot.value.id, title);
        effects := effects + [Retitled(snapshot.value.id, title)];
      }
    }

    /** The `try`/`catch` of a turn: sends the reply's text, or the error message, as the assistant message. */
    method SendReply(app: ChatState, reply: Reply, replyMessageId: string)
      modifies this, app
      ensures effects == old(effects) + ReplyEffects(reply)
      ensures app.conversations
        == AppendMessage(old(app.conversations), app.currentConversationId, Assistant, ReplyContent(reply), replyMessageId)
      ensures app.currentConversationId == old(app.currentConversationId) && app.apiKey == old(app.apiKey)
      ensures input == old(input) && isLoading == old(isLoading)
    {
      match Complete(reply) {
        case Success(content) =>
          app.AddMessage(Assistant, content, replyMessageId);
          effects := effects + [Sent(Assistant, content), Notified(Succeeded)];
        case Failure(reason) =>
          effects := effects + [Notified(Failed(reason))];
          app.AddMessage(Assistant, ErrorContent(reason), replyMessageId);
          effects := effects + [Sent(Assistant, ErrorContent(reason))];
      }
    }
  }
}
