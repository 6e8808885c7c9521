/** The mobile assistant screen: the conversation with the assistant and the list
    of recent incidents it offers as context. The markup in the replies is parsed
    by `Markup.ParseMarkdown`, the same function the incident-detail screen uses. */
module ChatBot {
  import opened Wrappers
  import opened JsValues
  import opened JsStrings
  import opened ChatMessages

  const ChatGreeting := "Hi! I am your assistant. How can I help you?"

  /** The error text appended when the request fails. For an error response the
      status and the serialised body (`{}` when the body is falsy) are shown;
      `stringify` stands for `JSON.stringify`. */
  function ErrorText(err: Outcome, stringify: JsValue -> string): (text: string)
    requires !err.Responded?
    ensures StartsWith(text, ErrorPrefix)
    ensures err.ServerError? ==> EndsWith(text, stringify(OrElse(err.body, Obj(map[]))))
    ensures err.NoResponse? ==> text == ErrorPrefix + " No response received from server."
    ensures err.Failed? ==> text == ErrorPrefix + " " + err.message
  {
    match err
    case ServerError(status, body) =>
      var shown := stringify(OrElse(body, Obj(map[])));
      var t := ErrorPrefix + " Server responded with " + NatToString(status) + ": " + shown;
      assert t[|t| - |shown|..] == shown;
      t
    case NoResponse => ErrorPrefix + " No response received from server."
    case Failed(message) => ErrorPrefix + " " + message
  }

  /** Two texts that agree, each a numeral followed by `:` after the same head,
      have numerals of the same length: the shorter one's colon would face a
      digit of the other. */
  lemma NumeralNotShorter(head: string, na: string, sa: string, nb: string, sb: string)
    requires AllDigits(na) && AllDigits(nb)
    requires head + na + ": " + sa == head + nb + ": " + sb
    ensures |na| >= |nb|
  {
    var t := head + na + ": " + sa;
    assert !IsDigit(t[|head| + |na|]);
  }

  /** The status of an error response can be read back from its error text,
      whatever the serialised bodies are: the numeral is followed by `:`, which
      is not a digit. */
  lemma ErrorTextShowsStatus(a: nat, b: nat, bodyA: JsValue, bodyB: JsValue, stringify: JsValue -> string)
    requires ErrorText(ServerError(a, bodyA), stringify) == ErrorText(ServerError(b, bodyB), stringify)
    ensures a == b
  {
    var head := ErrorPrefix + " Server responded with ";
    var na, nb := NatToString(a), NatToString(b);
    var sa, sb := stringify(OrElse(bodyA, Obj(map[]))), stringify(OrElse(bodyB, Obj(map[])));
    var t := ErrorText(ServerError(a, bodyA), stringify);
    assert t == head + na + ": " + sa;
    assert t == head + nb + ": " + sb;
    NumeralNotShorter(head, na, sa, nb, sb);
    NumeralNotShorter(head, nb, sb, na, sa);
    assert na == t[|head|..|head| + |na|];
    assert nb == t[|head|..|head| + |nb|];
    NatToStringInjective(a, b);
  }

  /** The message the bot adds after a send: the server's truthy `bot_response`,
      and otherwise an error text. */
  function Reply(outcome: Outcome, stringify: JsValue -> string): (text: JsValue)
    ensures outcome.Responded? && BotResponse(outcome.data).Some? ==> text == BotResponse(outcome.data).value && Truthy(text)
    ensures outcome.Responded? && BotResponse(outcome.data).None? ==> text == Str(ErrorPrefix + " " + InvalidResponse)
    ensures !(outcome.Responded? && BotResponse(outcome.data).Some?) ==> text.Str? && StartsWith(text.s, ErrorPrefix)
  {
    if outcome.Responded? && BotResponse(outcome.data).Some? then BotResponse(outcome.data).value
    else Str(ErrorText(Caught(outcome), stringify))
  }

  class ChatBotScreen {
    var messages: seq<Message>
    var input: string
    var loading: bool
    var recentIncidents: JsValue
    var loadingIncidents: bool

    ghost predicate Valid()
      reads this
    {
      IsConversation(messages, ChatGreeting)
    }

    constructor()
      ensures Valid()
      ensures messages == Greeting(ChatGreeting) && input == "" && !loading
      ensures recentIncidents == Arr([], map[]) && !loadingIncidents
    {
      messages, input, loading := Greeting(ChatGreeting), "", false;
      recentIncidents, loadingIncidents := Arr([], map[]), false;
    }

    /** `fetchRecentIncidents`: a truthy response body replaces the list; a falsy
        body or a failed request keeps it. */
    method LoadRecentIncidents(response: Option<JsValue>)
      requires Valid()
      modifies this
      ensures Valid() && !loadingIncidents
      ensures recentIncidents == (if response.Some? && Truthy(response.value) then response.value else old(recentIncidents))
      ensures messages == old(messages) && input == old(input) && loading == old(loading)
    {
      loadingIncidents := true;
      if response.Some? && Truthy(response.value) {
        recentIncidents := response.value;
      }
      loadingIncidents := false;
    }

    /** `sendMessage`: a blank input changes nothing. Otherwise the user's message
        and then the reply (or an error text) are appended with ids equal to their
        positions; the request carries the input as typed and the texts of the
        user's earlier messages. */
    method SendMessage(outcome: Outcome, stringify: JsValue -> string) returns (sent: Option<ChatRequest>)
      requires Valid()
      modifies this
      ensures Valid()
      ensures IsBlank(old(input)) ==>
        && sent == None && messages == old(messages)
        && input == old(input) && loading == old(loading)
      ensures !IsBlank(old(input)) ==>
        && messages == Exchange(old(messages), old(input), Reply(outcome, stringify))
        && input == "" && !loading
        && sent == Some(ChatRequest(old(input), UserTexts(old(messages))))
      ensures recentIncidents == old(recentIncidents) && loadingIncidents == old(loadingIncidents)
    {
      if IsBlank(input) {
        return None;
      }
      var before := messages;
      var userInput := input;
      messages := Append(messages, Str(input), User);
      input := "";
      loading := true;
      sent := Some(ChatRequest(userInput, UserTexts(before)));
      var reply := Reply(outcome, stringify);
      messages := Append(messages, reply, Bot);
      ExchangeSpec(before, userInput, reply, ChatGreeting);
      loading := false;
    }
  }
}
