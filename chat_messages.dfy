/** The message lists of the three mobile chat screens. Each list starts with a
    greeting from the bot with id 0, and every message is appended as
    `{ id: list.length, text, sender }`, so a message's id is its position. The
    history sent with a request is the texts of the user's earlier messages. */
module ChatMessages {
  import opened Wrappers
  import opened JsValues
  import opened JsStrings

  datatype Sender = User | Bot

  /** `{ id, text, sender }`. A user's text is the typed string; a bot's text is
      whatever the server sent as the reply, so it is a JSON value. */
  datatype Message = Message(id: nat, text: JsValue, sender: Sender)

  predicate IdsAreIndices(ms: seq<Message>) {
    forall i | 0 <= i < |ms| :: ms[i].id == i
  }

  /** A conversation as the screens keep it: the greeting first, ids equal to
      positions. */
  predicate IsConversation(ms: seq<Message>, greeting: string) {
    && IdsAreIndices(ms)
    && |ms| > 0
    && ms[0] == Message(0, Str(greeting), Bot)
  }

  /** The initial state of a screen's list. */
  function Greeting(greeting: string): (ms: seq<Message>)
    ensures IsConversation(ms, greeting) && |ms| == 1
  {
    [Message(0, Str(greeting), Bot)]
  }

  /** `[...ms, { id: ms.length, text, sender }]`: the old list is kept as a prefix
      and the new message is numbered after it. */
  function Append(ms: seq<Message>, text: JsValue, sender: Sender): (r: seq<Message>)
    ensures |r| == |ms| + 1 && r[..|ms|] == ms
    ensures r[|ms|].text == text && r[|ms|].sender == sender
    ensures IdsAreIndices(ms) ==> IdsAreIndices(r)
  {
    ms + [Message(|ms|, text, sender)]
  }

  /** `ms.filter(m => m.sender === 'user').map(m => m.text)`: the `chat_history`
      sent with a request. */
  function UserTexts(ms: seq<Message>): (r: seq<JsValue>)
    ensures |r| <= |ms|
    decreases |ms|
  {
    if ms == [] then []
    else (if ms[0].sender == User then [ms[0].text] else []) + UserTexts(ms[1..])
  }

  /** The history holds the text of every user message and nothing else. */
  lemma {:induction false} UserTextsMembers(ms: seq<Message>)
    ensures forall m | m in ms && m.sender == User :: m.text in UserTexts(ms)
    ensures forall t | t in UserTexts(ms) :: exists m | m in ms :: m.sender == User && m.text == t
    decreases |ms|
  {
    if ms != [] {
      UserTextsMembers(ms[1..]);
      assert forall m | m in ms[1..] :: m in ms;
      assert forall m | m in ms :: m == ms[0] || m in ms[1..];
    }
  }

  /** The history of a list extended by one message: a user's text is added at the
      end, a bot's message adds nothing. */
  lemma {:induction false} UserTextsSnoc(ms: seq<Message>, m: Message)
    ensures UserTexts(ms + [m]) == UserTexts(ms) + (if m.sender == User then [m.text] else [])
    decreases |ms|
  {
    if ms == [] {
      assert ms + [m] == [m];
    } else {
      assert (ms + [m])[0] == ms[0];
      assert (ms + [m])[1..] == ms[1..] + [m];
      UserTextsSnoc(ms[1..], m);
    }
  }

  /** One completed exchange: the user's message, then the bot's reply. */
  function Exchange(ms: seq<Message>, input: string, reply: JsValue): seq<Message> {
    Append(Append(ms, Str(input), User), reply, Bot)
  }

  /** An exchange keeps the list as a prefix, numbers both new messages after it,
      and adds exactly the user's text to the history the next request sends. */
  lemma ExchangeSpec(ms: seq<Message>, input: string, reply: JsValue, greeting: string)
    requires IsConversation(ms, greeting)
    ensures var r := Exchange(ms, input, reply);
      && IsConversation(r, greeting)
      && |r| == |ms| + 2 && r[..|ms|] == ms
      && r[|ms|] == Message(|ms|, Str(input), User)
      && r[|ms| + 1] == Message(|ms| + 1, reply, Bot)
      && UserTexts(r) == UserTexts(ms) + [Str(input)]
  {
    var a := Append(ms, Str(input), User);
    UserTextsSnoc(ms, Message(|ms|, Str(input), User));
    UserTextsSnoc(a, Message(|a|, reply, Bot));
  }

  /** The body of a chat request. */
  datatype ChatRequest = ChatRequest(userInput: string, chatHistory: seq<JsValue>)

  /** What the request to the chat endpoint ends in: a success response with its
      parsed body; an error response (`err.response`); a request that got no
      response (`err.request`); or another error with its message. */
  datatype Outcome =
    | Responded(data: JsValue)
    | ServerError(status: nat, body: JsValue)
    | NoResponse
    | Failed(message: string)

  /** The start of every error text. */
  const ErrorPrefix := "Error connecting to chatbot."

  /** The message of the error thrown when a success response has no usable reply. */
  const InvalidResponse := "Invalid response format"

  /** `response.data && response.data.bot_response`, when it is truthy. */
  function BotResponse(data: JsValue): (r: Option<JsValue>)
    ensures r.Some? <==> Truthy(data) && Truthy(Get(data, "bot_response"))
    ensures r.Some? ==> r.value == Get(data, "bot_response")
  {
    if Truthy(data) && Truthy(Get(data, "bot_response")) then Some(Get(data, "bot_response")) else None
  }

  /** The outcome the catch block sees: a success response without a reply is
      turned into a thrown `Error('Invalid response format')`. */
  function Caught(outcome: Outcome): (r: Outcome)
    ensures !r.Responded?
    ensures outcome.Responded? ==> r == Failed(InvalidResponse)
    ensures !outcome.Responded? ==> r == outcome
  {
    if outcome.Responded? then Failed(InvalidResponse) else outcome
  }
}
