/** The mobile incident-detail screen: loading the incident and its comments,
    posting a comment, the incident-specific chat with the assistant, and the
    severity colour and status step shown in the header. The markup in the
    assistant's replies is parsed by `Markup.ParseMarkdown`. */
module IncidentDetail {
  import opened Wrappers
  import opened JsValues
  import opened JsStrings
  import opened ChatMessages
  import AdminDashboard

  // ---------------------------------------------------------------------------
  // Header: severity colour and status step
  // ---------------------------------------------------------------------------

  const Green := "#4ade80"
  const Yellow := "#fde047"
  const Red := "#ff5252"
  const Blue := "#0bf"

  /** `getSeverityColor`: a strict comparison against the three severities, with
      every other value shown like "low". */
  function SeverityColor(severity: JsValue): (color: string)
    ensures severity == Str("medium") ==> color == Yellow
    ensures severity == Str("high") ==> color == Red
    ensures severity != Str("medium") && severity != Str("high") ==> color == Green
  {
    if severity == Str("low") then Green
    else if severity == Str("medium") then Yellow
    else if severity == Str("high") then Red
    else Green
  }

  datatype StatusInfo = StatusInfo(color: string, step: nat, text: string)

  /** `getStatusInfo`: "resolved" is step 2, "under investigation" step 1, and
      every other key step 0 ("Submitted"). */
  function GetStatusInfo(status: string): (info: StatusInfo)
    ensures info.step <= 2
    ensures info.step == 2 <==> status == "resolved"
    ensures info.step == 1 <==> status == "under investigation"
    ensures info.step == 2 ==> info == StatusInfo(Green, 2, "Resolved")
    ensures info.step == 1 ==> info == StatusInfo(Yellow, 1, "Under Investigation")
    ensures info.step == 0 ==> info == StatusInfo(Blue, 0, "Submitted")
  {
    if status == "resolved" then StatusInfo(Green, 2, "Resolved")
    else if status == "under investigation" then StatusInfo(Yellow, 1, "Under Investigation")
    else StatusInfo(Blue, 0, "Submitted")
  }

  /** The key the header passes to `getStatusInfo`: the lowercased status, or
      "submitted" when the status is falsy. A truthy status that is not a string
      has no `toLowerCase`, so rendering throws (`None`). */
  function StatusKey(status: JsValue): (key: Option<string>)
    ensures Falsy(status) ==> key == Some("submitted")
    ensures Truthy(status) && status.Str? ==> key == Some(Lower(status.s))
    ensures key.None? <==> Truthy(status) && !status.Str?
  {
    if Falsy(status) then Some("submitted")
    else if status.Str? then Some(Lower(status.s))
    else None
  }

  /** The header's step agrees with the admin dashboard's card step for every
      string status, and a missing status is step 0 on both. */
  lemma HeaderStepAgreesWithDashboard(status: Option<string>)
    ensures var v := if status.Some? then Str(status.value) else Null;
      StatusKey(v).Some? && GetStatusInfo(StatusKey(v).value).step == AdminDashboard.CardStep(status)
  {
    if status.Some? && status.value == "" {
      assert Lower("") == "";
      assert AdminDashboard.CardStep(status) == 0;
    }
  }

  // ---------------------------------------------------------------------------
  // The chat
  // ---------------------------------------------------------------------------

  const ChatGreeting := "Hi! I am your assistant. How can I help you with this incident?"

  /** The error text appended to the chat when the request fails. */
  function ErrorText(err: Outcome): (text: string)
    requires !err.Responded?
    ensures StartsWith(text, ErrorPrefix)
    ensures err.NoResponse? ==> text == ErrorPrefix + " No response received from server."
    ensures err.Failed? ==> text == ErrorPrefix + " " + err.message
  {
    match err
    case ServerError(status, _) => ErrorPrefix + " Server responded with " + NatToString(status) + "."
    case NoResponse => ErrorPrefix + " No response received from server."
    case Failed(message) => ErrorPrefix + " " + message
  }

  /** The status of an error response can be read back from its error text. */
  lemma ErrorTextShowsStatus(a: nat, b: nat, bodyA: JsValue, bodyB: JsValue)
    requires ErrorText(ServerError(a, bodyA)) == ErrorText(ServerError(b, bodyB))
    ensures a == b
  {
    var head := ErrorPrefix + " Server responded with ";
    var ta, tb := ErrorText(ServerError(a, bodyA)), ErrorText(ServerError(b, bodyB));
    assert ta == head + NatToString(a) + ".";
    assert tb == head + NatToString(b) + ".";
    assert |NatToString(a)| == |NatToString(b)|;
    assert NatToString(a) == ta[|head|..|ta| - 1];
    assert NatToString(b) == tb[|head|..|tb| - 1];
    NatToStringInjective(a, b);
  }

  /** The message the bot adds after a send: the server's truthy `bot_response`,
      and otherwise an error text. */
  function Reply(outcome: Outcome): (text: JsValue)
    ensures outcome.Responded? && BotResponse(outcome.data).Some? ==> text == BotResponse(outcome.data).value && Truthy(text)
    ensures outcome.Responded? && BotResponse(outcome.data).None? ==> text == Str(ErrorPrefix + " " + InvalidResponse)
    ensures !(outcome.Responded? && BotResponse(outcome.data).Some?) ==> text.Str? && StartsWith(text.s, ErrorPrefix)
  {
    if outcome.Responded? && BotResponse(outcome.data).Some? then BotResponse(outcome.data).value
    else Str(ErrorText(Caught(outcome)))
  }

  /** The body of the chat request: the input is prefixed with the incident, and
      the incident id goes along. */
  datatype IncidentChatRequest = IncidentChatRequest(chat: ChatRequest, incidentId: string)

  function ChatInputFor(id: string, input: string): (r: string)
    ensures StartsWith(r, "Regarding incident #") && EndsWith(r, input)
    ensures |r| == 22 + |id| + |input|
    ensures r[20..20 + |id|] == id && r[20 + |id|..22 + |id|] == ": "
  {
    var r := "Regarding incident #" + id + ": " + input;
    assert r[..20] == "Regarding incident #";
    assert r[|r| - |input|..] == input;
    r
  }

  // ---------------------------------------------------------------------------
  // The screen
  // ---------------------------------------------------------------------------

  const LoadFailed := "Failed to load incident details. Please try again later."
  const CommentFailed := "Failed to submit your comment. Please try again."

  class IncidentDetailScreen {
    /** The incident id from the route. */
    const id: string
    var incident: Option<JsValue>
    var loading: bool
    var error: string
    var comments: seq<JsValue>
    var newComment: string
    var sendingComment: bool
    var chatMessages: seq<Message>
    var chatInput: string
    var sendingChat: bool

    ghost predicate Valid()
      reads this
    {
      IsConversation(chatMessages, ChatGreeting)
    }

    constructor(routeId: string)
      ensures Valid()
      ensures id == routeId && incident == None && loading && error == ""
      ensures comments == [] && newComment == "" && !sendingComment
      ensures chatMessages == Greeting(ChatGreeting) && chatInput == "" && !sendingChat
    {
      id := routeId;
      incident, loading, error := None, true, "";
      comments, newComment, sendingComment := [], "", false;
      chatMessages, chatInput, sendingChat := Greeting(ChatGreeting), "", false;
    }

    /** `fetchIncidentDetails`: `details` is the incident response and
      `commentsBody` the comments response, `None` when a request fails. The
      comments body is stored only when it is truthy: `Some(None)` stands for a
      falsy body, `Some(Some(list))` for an array, which is truthy even when
      empty. The incident is kept even when the comments request fails
      afterwards; loading ends either way. */
    method Load(details: Option<JsValue>, commentsBody: Option<Option<seq<JsValue>>>)
      requires Valid()
      modifies this
      ensures Valid() && !loading
      ensures incident == (if details.Some? then details else old(incident))
      ensures comments == (if details.Some? && commentsBody.Some? && commentsBody.value.Some? then commentsBody.value.value
                           else old(comments))
      ensures error == (if details.Some? && commentsBody.Some? then old(error) else LoadFailed)
      ensures newComment == old(newComment) && sendingComment == old(sendingComment)
      ensures chatMessages == old(chatMessages) && chatInput == old(chatInput) && sendingChat == old(sendingChat)
    {
      if details.None? {
        error := LoadFailed;
      } else {
        incident := details;
        if commentsBody.None? {
          error := LoadFailed;
        } else if commentsBody.value.Some? {
          comments := commentsBody.value.value;
        }
      }
      loading := false;
    }

    /** `submitComment`: `response` is the posted comment the server returns,
      `None` when the request fails (an alert is shown). A blank comment is
      not sent; a truthy response is appended and clears the input. */
    method SubmitComment(response: Option<JsValue>) returns (sent: Option<string>, alert: Option<string>)
      requires Valid()
      modifies this
      ensures Valid()
      ensures IsBlank(old(newComment)) ==>
        && sent == None && alert == None && comments == old(comments)
        && newComment == old(newComment) && sendingComment == old(sendingComment)
      ensures !IsBlank(old(newComment)) ==> sent == Some(old(newComment)) && !sendingComment
      ensures !IsBlank(old(newComment)) && response.Some? && Truthy(response.value) ==>
        comments == old(comments) + [response.value] && newComment == "" && alert == None
      ensures !IsBlank(old(newComment)) && response.Some? && Falsy(response.value) ==>
        comments == old(comments) && newComment == old(newComment) && alert == None
      ensures !IsBlank(old(newComment)) && response.None? ==>
        comments == old(comments) && newComment == old(newComment) && alert == Some(CommentFailed)
      ensures incident == old(incident) && loading == old(loading) && error == old(error)
      ensures chatMessages == old(chatMessages) && chatInput == old(chatInput) && sendingChat == old(sendingChat)
    {
      sent, alert := None, None;
      if IsBlank(newComment) {
        return;
      }
      sendingComment := true;
      sent := Some(newComment);
      if response.None? {
        alert := Some(CommentFailed);
      } else if Truthy(response.value) {
        comments := comments + [response.value];
        newComment := "";
      }
      sendingComment := false;
    }

    /** `sendChatMessage`: a blank input changes nothing. Otherwise the user's
      message and then the reply (or an error text) are appended with ids equal
      to their positions, and the request carries the prefixed input and the
      texts of the user's earlier messages. */
    method SendChatMessage(outcome: Outcome) returns (sent: Option<IncidentChatRequest>)
      requires Valid()
      modifies this
      ensures Valid()
      ensures IsBlank(old(chatInput)) ==>
        && sent == None && chatMessages == old(chatMessages)
        && chatInput == old(chatInput) && sendingChat == old(sendingChat)
      ensures !IsBlank(old(chatInput)) ==>
        && chatMessages == Exchange(old(chatMessages), old(chatInput), Reply(outcome))
        && chatInput == "" && !sendingChat
        && sent == Some(IncidentChatRequest(ChatRequest(ChatInputFor(id, old(chatInput)), UserTexts(old(chatMessages))), id))
      ensures incident == old(incident) && loading == old(loading) && error == old(error)
      ensures comments == old(comments) && newComment == old(newComment) && sendingComment == old(sendingComment)
    {
      if IsBlank(chatInput) {
        return None;
      }
      var before, userInput := chatMessages, chatInput;
      var reply := Reply(outcome);
      ExchangeSpec(before, userInput, reply, ChatGreeting);
      chatMessages := Append(chatMessages, Str(chatInput), User);
      chatInput := "";
      sendingChat := true;
      sent := Some(IncidentChatRequest(ChatRequest(ChatInputFor(id, userInput), UserTexts(before)), id));
      chatMessages := Append(chatMessages, reply, Bot);
      assert chatMessages == Exchange(before, userInput, reply);
      sendingChat := false;
    }
  }
}
