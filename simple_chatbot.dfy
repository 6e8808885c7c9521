/** The simpler assistant screen: the reply is read from `reply`, a missing one
    is replaced by a fixed apology, and every failure shows one fixed error text. */
module SimpleChatBot {
  import opened Wrappers
  import opened JsValues
  import opened JsStrings
  import opened ChatMessages

  const ChatGreeting := "Hi! I am your assistant. How can I help you?"
  const NotUnderstood := "Sorry, I could not understand."

  /** The message the bot adds: a truthy `reply` of a success response, the
      apology for a success response without one, and the bare error prefix for
      every failure. */
  function Reply(outcome: Outcome): (text: JsValue)
    ensures outcome.Responded? && Truthy(outcome.data) && Truthy(Get(outcome.data, "reply")) ==>
      text == Get(outcome.data, "reply")
    ensures outcome.Responded? && !(Truthy(outcome.data) && Truthy(Get(outcome.data, "reply"))) ==>
      text == Str(NotUnderstood)
    ensures !outcome.Responded? ==> text == Str(ErrorPrefix)
    ensures Truthy(text)
  {
    if !outcome.Responded? then Str(ErrorPrefix)
    else if Truthy(outcome.data) && Truthy(Get(outcome.data, "reply")) then Get(outcome.data, "reply")
    else Str(NotUnderstood)
  }

  class SimpleChatBotScreen {
    var messages: seq<Message>
    var input: string
    var loading: bool

    ghost predicate Valid()
      reads this
    {
      IsConversation(messages, ChatGreeting)
    }

    constructor()
      ensures Valid()
      ensures messages == Greeting(ChatGreeting) && input == "" && !loading
    {
      messages, input, loading := Greeting(ChatGreeting), "", false;
    }

    /** `sendMessage`: a blank input changes nothing; otherwise the user's message
        and the bot's message are appended with ids equal to their positions, and
        loading ends false whatever the outcome. */
    method SendMessage(outcome: Outcome) returns (sent: Option<ChatRequest>)
      requires Valid()
      modifies this
      ensures Valid()
      ensures IsBlank(old(input)) ==>
        && sent == None && messages == old(messages)
        && input == old(input) && loading == old(loading)
      ensures !IsBlank(old(input)) ==>
        && messages == Exchange(old(messages), old(input), Reply(outcome))
        && input == "" && !loading
        && sent == Some(ChatRequest(old(input), UserTexts(old(messages))))
    {
      if IsBlank(input) {
        return None;
      }
      var before := messages;
      var userInput := input;
      messages := Append(messages, Str(input), User);
      input := "";
      loading := true;
      sent := Some(ChatRequest(userInput, UserTexts(before)));
      var reply := Reply(outcome);
      messages := Append(messages, reply, Bot);
      ExchangeSpec(before, userInput, reply, ChatGreeting);
      loading := false;
    }
  }
}
