/** The web group-chat page. Messages are loaded once after joining, then polled
    with a cursor, the timestamp of the last message seen; sending appends the
    stored message the server returns. The two-second polling timer is left out:
    each poll is one step. */
module ChatRoom {
  import opened Wrappers
  import opened JsStrings
  import opened JsValues

  /** A stored message as the server returns it. */
  datatype RoomMessage = RoomMessage(id: int, username: string, content: string, timestamp: string)

  /** The fields a send posts. */
  datatype Post = Post(username: string, content: string)

  /** An entry of the page's list: a stored message, or the JSON object of an
      error response (a rejected send), which `sendMessage` appends as well. */
  datatype Shown = Message(m: RoomMessage) | ErrorObject(props: map<string, JsValue>)

  /** What a send gets back: the stored message, the JSON object of an error
      response (the status is not looked at), or no JSON at all (the request or
      the parse throws). */
  datatype SendReply = Stored(stored: RoomMessage) | Rejected(body: map<string, JsValue>) | Failed

  /** The timestamp of the last message of a non-empty list. */
  function LastTimestamp(ms: seq<RoomMessage>): string
    requires |ms| > 0
  {
    ms[|ms| - 1].timestamp
  }

  /** Fetched messages as entries of the list, in order. */
  function AsShown(ms: seq<RoomMessage>): (r: seq<Shown>)
    ensures |r| == |ms|
    ensures forall i | 0 <= i < |ms| :: r[i] == Message(ms[i])
  {
    if ms == [] then [] else [Message(ms[0])] + AsShown(ms[1..])
  }

  /** `data.timestamp` of an error object as the cursor: its string value, and
      the empty string (falsy, like `undefined`) when the key is missing. */
  function CursorOf(body: map<string, JsValue>): (c: string)
    ensures "timestamp" !in body ==> c == ""
    ensures "timestamp" in body && body["timestamp"].Str? ==> c == body["timestamp"].s
  {
    if "timestamp" in body && body["timestamp"].Str? then body["timestamp"].s else ""
  }

  /** The trimmed fields a send posts; both are non-empty once the blank checks
      pass. */
  function PostFor(username: string, message: string): (p: Post)
    requires !IsBlank(username) && !IsBlank(message)
    ensures p.username != "" && p.content != ""
    ensures p.username == Trim(username) && p.content == Trim(message)
  {
    TrimEmptyIffBlank(username);
    TrimEmptyIffBlank(message);
    Post(Trim(username), Trim(message))
  }

  class ChatPage {
    var messages: seq<Shown>
    var username: string
    var message: string
    var isUsernameSet: bool
    /** `lastMessageTimestamp.current`; the empty string stands for its initial
        `null`, which is falsy in the same way. */
    var cursor: string

    constructor()
      ensures messages == [] && username == "" && message == "" && !isUsernameSet && cursor == ""
    {
      messages, username, message, isUsernameSet, cursor := [], "", "", false, "";
    }

    /** `loadMessages`: `response` is the fetched list, `None` when the request
        or the parse fails (nothing changes). The list is replaced, and the cursor
        moves to the last message when there is one. */
    method LoadMessages(response: Option<seq<RoomMessage>>)
      modifies this
      ensures response.None? ==> messages == old(messages) && cursor == old(cursor)
      ensures response.Some? ==> messages == AsShown(response.value)
      ensures response.Some? && |response.value| > 0 ==> cursor == LastTimestamp(response.value)
      ensures response.Some? && |response.value| == 0 ==> cursor == old(cursor)
      ensures username == old(username) && message == old(message) && isUsernameSet == old(isUsernameSet)
    {
      if response.Some? {
        messages := AsShown(response.value);
        if |response.value| > 0 {
          cursor := LastTimestamp(response.value);
        }
      }
    }

    /** `checkForNewMessages`: without a cursor nothing is asked and nothing
        changes. Otherwise the messages after the cursor are asked for; fetched
        messages are appended after the existing ones and the cursor moves to the
        last of them; an empty or failed fetch changes nothing. */
    method CheckForNewMessages(response: Option<seq<RoomMessage>>) returns (asked: Option<string>)
      modifies this
      ensures old(cursor) == "" ==> asked == None
      ensures old(cursor) != "" ==> asked == Some(old(cursor))
      ensures old(cursor) == "" || response.None? || |response.value| == 0 ==>
        messages == old(messages) && cursor == old(cursor)
      ensures old(cursor) != "" && response.Some? && |response.value| > 0 ==>
        && messages == old(messages) + AsShown(response.value)
        && messages[..|old(messages)|] == old(messages)
        && cursor == LastTimestamp(response.value)
      ensures username == old(username) && message == old(message) && isUsernameSet == old(isUsernameSet)
    {
      if cursor == "" {
        return None;
      }
      asked := Some(cursor);
      if response.Some? && |response.value| > 0 {
        messages := messages + AsShown(response.value);
        cursor := LastTimestamp(response.value);
      }
    }

    /** `sendMessage`: nothing is posted unless both the message and the username
        are non-blank; the posted fields are trimmed. Whatever JSON comes back is
        appended and the input cleared, and the cursor moves to its `timestamp`:
        for an error object that is missing, so the cursor becomes falsy and the
        polls stop. Only a request or a parse that throws shows an alert, and then
        nothing changes. */
    method SendMessage(reply: SendReply) returns (posted: Option<Post>, alert: bool)
      modifies this
      ensures IsBlank(old(message)) || IsBlank(old(username)) ==>
        && posted == None && !alert
        && messages == old(messages) && message == old(message) && cursor == old(cursor)
      ensures !IsBlank(old(message)) && !IsBlank(old(username)) ==>
        && posted == Some(PostFor(old(username), old(message)))
        && (reply.Stored? ==>
              messages == old(messages) + [Message(reply.stored)] && message == "" && cursor == reply.stored.timestamp && !alert)
        && (reply.Rejected? ==>
              messages == old(messages) + [ErrorObject(reply.body)] && message == "" && cursor == CursorOf(reply.body) && !alert)
        && (reply.Failed? ==>
              messages == old(messages) && message == old(message) && cursor == old(cursor) && alert)
      ensures username == old(username) && isUsernameSet == old(isUsernameSet)
    {
      posted, alert := None, false;
      if IsBlank(message) || IsBlank(username) {
        return;
      }
      posted := Some(PostFor(username, message));
      match reply
      case Stored(m) =>
        messages := messages + [Message(m)];
        message := "";
        cursor := m.timestamp;
      case Rejected(body) =>
        messages := messages + [ErrorObject(body)];
        message := "";
        cursor := CursorOf(body);
      case Failed =>
        alert := true;
    }

    /** `handleUsernameSubmit`: a non-blank username joins the room and loads the
        messages; a blank one changes nothing. */
    method HandleUsernameSubmit(response: Option<seq<RoomMessage>>)
      modifies this
      ensures IsBlank(old(username)) ==>
        && isUsernameSet == old(isUsernameSet) && messages == old(messages) && cursor == old(cursor)
      ensures !IsBlank(old(username)) ==> isUsernameSet
      ensures !IsBlank(old(username)) && response.Some? ==> messages == AsShown(response.value)
      ensures !IsBlank(old(username)) && response.Some? && |response.value| > 0 ==> cursor == LastTimestamp(response.value)
      ensures !IsBlank(old(username)) && (response.None? || |response.value| == 0) ==> cursor == old(cursor)
      ensures !IsBlank(old(username)) && response.None? ==> messages == old(messages)
      ensures username == old(username) && message == old(message)
    {
      if !IsBlank(username) {
        isUsernameSet := true;
        LoadMessages(response);
      }
    }

    /** The "Change Username" button: leaves the room and clears the username and
        the list; the cursor is kept. */
    method ChangeUsername()
      modifies this
      ensures !isUsernameSet && username == "" && messages == []
      ensures cursor == old(cursor) && message == old(message)
    {
      isUsernameSet := false;
      username := "";
      messages := [];
    }
  }

  /** The list endpoint as written fails on every request (its re-ordering of a
      sliced query is refused), so `loadMessages` always gets no list. A page
      that joins then shows no message, holds no cursor, and its polls ask for
      nothing until a send succeeds. */
  method JoinWhileListFails(name: string) returns (page: ChatPage, asked: Option<string>)
    requires !IsBlank(name)
    ensures page.isUsernameSet && page.messages == [] && page.cursor == ""
    ensures asked == None
  {
    page := new ChatPage();
    page.username := name;
    page.HandleUsernameSubmit(None);
    asked := page.CheckForNewMessages(Some([RoomMessage(1, "a", "b", "1")]));
  }
}
