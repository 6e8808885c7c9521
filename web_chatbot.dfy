/** The web assistant page. Its conversation is a list of strings, each prefixed
    with who wrote it ("User: " or "Saathi AI: "); the prefix decides how the
    entry is rendered (`Markup.RenderEntry`). A second, local list collects typed
    notes without sending them. */
module WebChatbot {
  import opened Wrappers
  import opened JsStrings
  import opened ChatMessages
  import Markup

  const UserPrefix := "User: "
  const BotPrefix := "Saathi AI: "

  /** What the `fetch` ends in: an ok response whose `bot_response`, placed in a
      template literal, reads `botText`; a response that is not ok; or a thrown
      error (no response, or a body that is not JSON). */
  datatype WebOutcome = Ok(botText: string) | NotOk | Thrown

  /** The request body: the input and the history before the new entry. */
  datatype WebRequest = WebRequest(userInput: string, chatHistory: seq<string>)

  /** `{ text, sender: "user" }` of the local list. */
  datatype Note = Note(text: string, sender: Sender)

  /** The entries one send adds: the user's entry, then the reply when the
      response is ok. */
  function SendEntries(input: string, outcome: WebOutcome): (r: seq<string>)
    ensures 1 <= |r| <= 2 && r[0] == UserPrefix + input
    ensures |r| == 2 <==> outcome.Ok?
    ensures outcome.Ok? ==> r[1] == BotPrefix + outcome.botText
  {
    [UserPrefix + input] + (if outcome.Ok? then [BotPrefix + outcome.botText] else [])
  }

  /** Every entry carries one of the two prefixes. */
  predicate IsHistory(h: seq<string>) {
    forall i | 0 <= i < |h| :: StartsWith(h[i], UserPrefix) || StartsWith(h[i], BotPrefix)
  }

  /** The entries a send adds carry the prefixes. */
  lemma SendEntriesAreHistory(h: seq<string>, input: string, outcome: WebOutcome)
    requires IsHistory(h)
    ensures IsHistory(h + SendEntries(input, outcome))
  {
    var e := SendEntries(input, outcome);
    assert StartsWith(e[0], UserPrefix) by { assert e[0][..|UserPrefix|] == UserPrefix; }
    if outcome.Ok? {
      assert StartsWith(e[1], BotPrefix) by { assert e[1][..|BotPrefix|] == BotPrefix; }
    }
    forall i | 0 <= i < |h + e| ensures StartsWith((h + e)[i], UserPrefix) || StartsWith((h + e)[i], BotPrefix) {
      if i >= |h| {
        assert (h + e)[i] == e[i - |h|];
      }
    }
  }

  /** A history entry renders as the user's exactly when the user wrote it. */
  lemma EntryRenderedBySender(entry: string)
    requires StartsWith(entry, UserPrefix) || StartsWith(entry, BotPrefix)
    ensures Markup.RenderEntry(entry).fromUser <==> StartsWith(entry, UserPrefix)
  {
    if StartsWith(entry, UserPrefix) {
      assert entry[..5] == UserPrefix[..5];
    } else {
      assert entry[0] == BotPrefix[0];
    }
  }

  class ChatbotPage {
    var userInput: string
    var chatHistory: seq<string>
    var loading: bool
    var messages: seq<Note>
    var input: string

    ghost predicate Valid()
      reads this
    {
      && IsHistory(chatHistory)
      && forall i | 0 <= i < |messages| :: messages[i].sender == User && !IsBlank(messages[i].text)
    }

    constructor()
      ensures Valid()
      ensures userInput == "" && chatHistory == [] && !loading && messages == [] && input == ""
    {
      userInput, chatHistory, loading := "", [], false;
      messages, input := [], "";
    }

    /** `handleSend`: a non-blank input is added to the local list and cleared. */
    method HandleSend()
      requires Valid()
      modifies this
      ensures Valid()
      ensures IsBlank(old(input)) ==> messages == old(messages) && input == old(input)
      ensures !IsBlank(old(input)) ==> messages == old(messages) + [Note(old(input), User)] && input == ""
      ensures userInput == old(userInput) && chatHistory == old(chatHistory) && loading == old(loading)
    {
      if IsBlank(input) {
        return;
      }
      messages := messages + [Note(input, User)];
      input := "";
    }

    /** `sendMessage`: a blank input changes nothing. Otherwise the user's entry
        is added and the input cleared; the request carries the input and the
        history before the new entry; an ok response adds the reply, anything else
        adds nothing; loading ends false. */
    method SendMessage(outcome: WebOutcome) returns (sent: Option<WebRequest>)
      requires Valid()
      modifies this
      ensures Valid()
      ensures IsBlank(old(userInput)) ==>
        && sent == None && chatHistory == old(chatHistory)
        && userInput == old(userInput) && loading == old(loading)
      ensures !IsBlank(old(userInput)) ==>
        && chatHistory == old(chatHistory) + SendEntries(old(userInput), outcome)
        && userInput == "" && !loading
        && sent == Some(WebRequest(old(userInput), old(chatHistory)))
      ensures messages == old(messages) && input == old(input)
    {
      if IsBlank(userInput) {
        return None;
      }
      var before := chatHistory;
      var typed := userInput;
      chatHistory := chatHistory + [UserPrefix + userInput];
      userInput := "";
      loading := true;
      sent := Some(WebRequest(typed, before));
      if outcome.Ok? {
        chatHistory := chatHistory + [BotPrefix + outcome.botText];
      }
      assert chatHistory == before + SendEntries(typed, outcome);
      SendEntriesAreHistory(before, typed, outcome);
      loading := false;
    }

    /** `handleKeyDown`: Enter sends unless a reply is awaited, which for a blank
        input changes nothing; other keys do nothing. */
    method HandleKeyDown(key: string, outcome: WebOutcome) returns (sent: Option<WebRequest>)
      requires Valid()
      modifies this
      ensures Valid()
      ensures key != "Enter" || old(loading) ==>
        && sent == None && chatHistory == old(chatHistory)
        && userInput == old(userInput) && loading == old(loading)
      ensures key == "Enter" && !old(loading) && IsBlank(old(userInput)) ==>
        && sent == None && chatHistory == old(chatHistory)
        && userInput == old(userInput) && loading == old(loading)
      ensures key == "Enter" && !old(loading) && !IsBlank(old(userInput)) ==>
        && chatHistory == old(chatHistory) + SendEntries(old(userInput), outcome)
        && userInput == "" && !loading
        && sent == Some(WebRequest(old(userInput), old(chatHistory)))
      ensures messages == old(messages) && input == old(input)
    {
      sent := None;
      if key == "Enter" && !loading {
        sent := SendMessage(outcome);
      }
    }
  }
}
