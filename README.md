# SIH25 incident-reporting app: a Dafny model of its rules

SIH25 is an incident-reporting system. Citizens report incidents from a React
Native app or a React web front end, with a photo, a location and a
description. Administrators triage the reports on a dashboard. A chatbot and
a small chat room help users. What remains once rendering, networking and
device APIs are taken away is a set of rules over records, lists and strings,
and those rules are what this project models and proves:

- **Recent incidents** (`recent_incidents.dfy`, module `RecentIncidents`)
  covers the mobile screen's state: `incidents`, `allIncidents`, `error`,
  the selected map point and the radius, kept in a class with one method per
  handler.
  - The defaulting pass fills each incident in before display.
  - Two radius filters keep a subsequence of their source list.
  - A filter that finds nothing keeps the previous list.
  - Reset restores the full list.
  - A comment is appended to every listed incident whose id is `===` the
    selected one, and to the selected incident. Ids are not proved unique.
- **Admin dashboard** (`admin_dashboard.dfy`) covers:
  - the counting loop;
  - the new / accepted / completed buckets, which partition the incidents;
  - the severity filter;
  - removal after a false report;
  - the progress step of a card.
- **Chat markup** (`markup.dfy`) models the regular expression
  `([*][*].*?[*][*]|[*].*?[*])` as a leftmost, shortest-match scanner.
  - `String.prototype.split` with a capturing group is modelled on top of it, and so is `parseMarkdown`.
  - The pieces concatenate back to the text.
  - The web chatbot's renderer is also modelled. It classifies the same pieces in the same way.
- **Chat screens** (`chat_messages.dfy`, `chatbot_screen.dfy`,
  `simple_chatbot.dfy`, `incident_detail.dfy`, `web_chatbot.dfy`) cover:
  - append-only message lists whose ids equal their positions;
  - the `chat_history` sent to the bot;
  - the reply and error fallbacks.
- **Chat room** (`chat_room.dfy`, `chat_server.dfy`) covers:
  - the web client's polling cursor, sending and joining;
  - the Django view's "messages newer than t" query.
- **Forms** (`forms.dfy`, `login.dfy`, `login_screen.dfy`, `sign_up.dfy`,
  `signup_screen.dfy`) cover:
  - the unanchored e-mail pattern, the digit patterns and the password rules;
  - "valid exactly when no error was recorded";
  - "the request is sent only for a valid form";
  - what each failure leaves in the error map.
- **Upload page** (`upload_page.dfy`) covers:
  - the file and location checks, in their order;
  - drop acceptance by MIME prefix;
  - the geolocation error messages;
  - the form that is posted.

Helper modules:

- `Wrappers` holds the `Option` type.
- `JsStrings` models the JavaScript string operations the screens use: `trim`, `\s`, `startsWith`, `replace`, decimal numerals and `length` in UTF-16 code units.
- `JsValues` models loosely typed JSON values: truthiness, property access and `x || d`.
- `Sequences` holds filter, count and subsequence lemmas.

Some behaviour comes from outside the modelled code and is passed in as a
parameter, in one of two forms:

- **Operations:**
  - `parseFloat`;
  - `JSON.parse`;
  - the haversine distance;
  - the random id suffix;
  - the current ISO time;
  - `Number.prototype.toString`;
  - `JSON.stringify`.
- **Request outcomes:** the result of each request is a datatype value.

A stateful screen is a class with one method per handler. Each method's
`ensures` says, for every case the handler tells apart, what each field
becomes.

## Model

| member | source | states |
|---|---|---|
| AdminDashboard.CountIncidents | frontend/src/pages/AdminDashboard.jsx:80-96 | the counting loop: total is the number of incidents, resolved the number with status exactly "Resolved", unresolved the rest |
| AdminDashboard.BucketsPartition | frontend/src/pages/AdminDashboard.jsx:99-121 | new tasks, accepted-under-"All" and completed split the incidents: their multisets add up to the incidents' multiset |
| AdminDashboard.UnresolvedIsNewPlusAccepted | frontend/src/pages/AdminDashboard.jsx:85-96 | the unresolved counter equals the number of new plus accepted incidents |
| AdminDashboard.SeverityFilterNarrows | frontend/src/pages/AdminDashboard.jsx:106-118 | a severity filter keeps a subsequence of what "All" keeps |
| AdminDashboard.HighFilter | frontend/src/pages/AdminDashboard.jsx:113-117 | under "High" an incident is accepted exactly when its severity is "high" and "All" accepts it |
| AdminDashboard.RemoveId | frontend/src/pages/AdminDashboard.jsx:224-226 | after a false report exactly the incidents with another id remain, in their order and each as often as before |
| AdminDashboard.CardStep | frontend/src/pages/AdminDashboard.jsx:242-247 | step 2 exactly for a status that lowercases to "resolved", 1 exactly for "under investigation", else 0 |
| AdminDashboard.Lifecycle | frontend/src/pages/AdminDashboard.jsx:164 | the statuses the accept (164) and complete (187) buttons send move an incident from the new list at step 0 to the accepted list at step 1 and to the completed list at step 2 |
| AdminDashboard.Dashboard.Recompute | frontend/src/pages/AdminDashboard.jsx:80-121 | the effects leave the counters and the three lists consistent with `incidents` and `filter` |
| AdminDashboard.Dashboard.LoadIncidents | frontend/src/pages/AdminDashboard.jsx:36-58 | an ok response replaces `incidents`; a failure changes nothing; the derived state stays consistent |
| AdminDashboard.Dashboard.SetFilter | frontend/src/pages/AdminDashboard.jsx:123-125 | the filter changes and the accepted list follows it |
| AdminDashboard.Dashboard.LoadFlagged | frontend/src/pages/AdminDashboard.jsx:127-149 | an ok response sets the flagged list to the incidents whose `true_or_false` is set |
| AdminDashboard.Dashboard.HandleFalseReport | frontend/src/pages/AdminDashboard.jsx:209-234 | with an ok response every incident with the id is removed, the flagged list is unchanged, and the derived state stays consistent |
| RecentIncidents.FieldDefault | app/app/RecentIncident1.js:343-347 | `if (!o.key) o.key = d`: a truthy value is kept, a falsy one becomes the default, every other property is untouched |
| RecentIncidents.KeyDefault | app/app/RecentIncident1.js:336-337 | `if (!('key' in o)) o.key = null`: the key is present afterwards, an existing key is untouched, a missing one is null |
| RecentIncidents.NormalizeLocation | app/app/RecentIncident1.js:324-340 | a falsy location or an unparseable string becomes `{latitude: null, longitude: null}`; an object (given or parsed) gets both keys and keeps its own; a value parsing to a non-object makes the `in` test throw |
| RecentIncidents.Normalize | app/app/RecentIncident1.js:317-350 | the callback throws exactly on a non-object element or when the location step throws |
| RecentIncidents.NormalizeSpec | app/app/RecentIncident1.js:317-350 | when it does not throw, the falsy id becomes "temp-" plus the suffix, the falsy type, description, status, timestamp and comments get their defaults, truthy values are kept, the location went through the location step, and other properties are untouched |
| RecentIncidents.NormalizeIsNormalized | app/app/RecentIncident1.js:317-350 | every incident that survives the pass has a truthy id and defaults and a location object with both keys |
| RecentIncidents.LocationUnderId | app/app/RecentIncident1.js:319-321 | the id default changes only the id and leaves it truthy |
| RecentIncidents.PlainDefaults | app/app/RecentIncident1.js:343-347 | the last five defaults complete a normalised incident and keep the id and the location |
| RecentIncidents.DefaultsShape | app/app/RecentIncident1.js:343-347 | after the five defaults the incident is normalised |
| RecentIncidents.DefaultsFields | app/app/RecentIncident1.js:343-347 | each of the five fields is defaulted exactly when falsy |
| RecentIncidents.DefaultsOthers | app/app/RecentIncident1.js:343-347 | the five defaults touch no other property |
| RecentIncidents.BeforePlainDefaults | app/app/RecentIncident1.js:319-340 | before the five defaults only the id and the location have changed |
| RecentIncidents.OtherDefaults | app/app/RecentIncident1.js:343-347 | the type, description, status, timestamp and comments defaults, each applied only when falsy, nothing else changed |
| RecentIncidents.TextDefaults | app/app/RecentIncident1.js:343-345 | the type, description and status defaults, each applied only when falsy |
| RecentIncidents.NormalizeIdempotent | app/app/RecentIncident1.js:317-350 | a normalised incident goes through the pass unchanged, whatever the oracles return |
| RecentIncidents.NormalizeSucceeds | app/app/RecentIncident1.js:324-340 | the pass never throws on an object whose location is falsy, an object, or a string that fails to parse or parses to an object |
| RecentIncidents.NonObjectLocationThrows | app/app/RecentIncident1.js:336 | the location text "5" parses to a number, so the `in` test throws |
| RecentIncidents.NormalizeLocationTotal | app/app/RecentIncident1.js:324-340 | the intended location step: always an object with both coordinate keys, the code's result where the code does not throw and the null location where it does |
| RecentIncidents.NonObjectLocationDefaults | app/app/RecentIncident1.js:336 | the intended step gives the location text "5" the null location |
| RecentIncidents.NearbySpec | app/app/RecentIncident1.js:214-237 | the filtered list is an order-preserving subsequence of its source holding each incident within the radius as often as the source does and no other, each with both coordinates present |
| RecentIncidents.NearbyMonotone | app/app/RecentIncident1.js:232 | whatever a radius keeps, any larger radius keeps too, in order (also 463) |
| RecentIncidents.OutOfRangeIsKept | app/app/RecentIncident1.js:446-463 | a latitude of 1000 is kept when the distance is within the radius: no range check is made |
| RecentIncidents.NearbyChecked | app/app/RecentIncident1.js:214-237 | the range-checked filter keeps exactly the source incidents that pass the radius test and have coordinates in [-90, 90] and [-180, 180] |
| RecentIncidents.NearbyCheckedSpec | app/app/RecentIncident1.js:214-237 | the range-checked list is an order-preserving subsequence of the code's list and holds only in-range coordinates |
| RecentIncidents.OutOfRangeIsDropped | app/app/RecentIncident1.js:214-237 | the latitude-1000 incident the code keeps is dropped by the range-checked filter |
| RecentIncidents.SpreadComments | app/app/RecentIncident1.js:376 | `[...(c || [])]`: nothing for a falsy value, an array's elements, a string's characters; throws for other values |
| RecentIncidents.Characters | app/app/RecentIncident1.js:376 | a string spreads into its one-character strings, in order |
| RecentIncidents.WithComment | app/app/RecentIncident1.js:374-377 | the copy has the old comments followed by the new one and every other property unchanged |
| RecentIncidents.WithCommentKeepsNormalized | app/app/RecentIncident1.js:369-387 | appending a comment keeps an incident normalised |
| RecentIncidents.AddComment | app/app/RecentIncident1.js:371-379 | incidents whose id is `===` the selected id get the comment, all others are identical, the length is kept; no result exactly when a comment list to extend cannot be spread |
| RecentIncidents.StatusBadge | app/app/RecentIncident1.js:17-26 | "Resolved" exactly for status "Resolved", "In Progress" exactly for "processing", "Submitted" otherwise |
| RecentIncidents.DefaultStatusBadge | app/app/RecentIncident1.js:345 | an incident that arrived without a status shows "Submitted" |
| RecentIncidents.NormalizeEach | app/app/RecentIncident1.js:317-350 | the loop returns the pass of each element in order, or fails exactly when some element throws |
| RecentIncidents.RecentIncidentsScreen.constructor | app/app/RecentIncident1.js:180-190 | the initial state: empty lists, loading, no error, no selection |
| RecentIncidents.RecentIncidentsScreen.RequestLocation | app/app/RecentIncident1.js:252-299 | granted: the device position; denied: the default region over India; a throw: the default region and an error |
| RecentIncidents.RecentIncidentsScreen.FetchIncidents | app/app/RecentIncident1.js:305-366 | an array body replaces both lists by its normalised elements; a non-array body or a throw empties `incidents` with its message and keeps `allIncidents`; loading ends false |
| RecentIncidents.RecentIncidentsScreen.FilterByMapPoint | app/app/RecentIncident1.js:209-249 | `allIncidents` are filtered with `mapRadius`; a non-empty result replaces `incidents`, an empty one keeps them and sets only the error |
| RecentIncidents.RecentIncidentsScreen.HandleMapPress | app/app/RecentIncident1.js:196-206 | the pressed point is remembered and the map filter runs around it |
| RecentIncidents.RecentIncidentsScreen.FilterByLocation | app/app/RecentIncident1.js:404-490 | the permission is asked for when not granted (with its two errors); then the current `incidents` are filtered within 10 km of the fresh position, an empty result keeping the list; loading ends false |
| RecentIncidents.RecentIncidentsScreen.ResetFilters | app/app/RecentIncident1.js:493-497 | `incidents` is restored to `allIncidents`, the error and the map point are cleared |
| RecentIncidents.RecentIncidentsScreen.SelectIncident | app/app/RecentIncident1.js:570-573 | the pressed card's incident becomes the selected one |
| RecentIncidents.RecentIncidentsScreen.HandleAddComment | app/app/RecentIncident1.js:369-387 | the comment is appended to the listed incidents with the selected id and to the selected incident; a comment list that cannot be spread crashes the screen; `allIncidents` is not touched |
| ChatMessages.Greeting | app/app/ChatBotScreen.js:45-47 | a list starts with one bot greeting with id 0 |
| ChatMessages.Append | app/app/ChatBotScreen.js:92-94 | `[...ms, {id: ms.length, ...}]`: the old list is a prefix, the new message carries the given text and sender, and ids stay equal to positions |
| ChatMessages.UserTexts | app/app/ChatBotScreen.js:100-102 | the history is no longer than the list |
| ChatMessages.UserTextsMembers | app/app/ChatBotScreen.js:100-102 | the history holds the text of every user message and only texts of user messages |
| ChatMessages.UserTextsSnoc | app/app/ChatBotScreen.js:100-102 | appending a user message adds its text at the end of the history; a bot message adds nothing |
| ChatMessages.ExchangeSpec | app/app/ChatBotScreen.js:92-145 | one exchange keeps the list as a prefix, numbers the user message and the reply after it, and adds exactly the user's text to the next history |
| ChatMessages.BotResponse | app/app/ChatBotScreen.js:116-117 | a reply exists exactly when the body and its `bot_response` are truthy |
| ChatBot.ErrorText | app/app/ChatBotScreen.js:129-136 | the text starts with "Error connecting to chatbot." and ends with the serialised body for a server error, " No response received from server." without a response, or the thrown message |
| ChatBot.ErrorTextShowsStatus | app/app/ChatBotScreen.js:131 | two server errors give the same text only when their statuses are equal, whatever their bodies serialise to |
| ChatBot.Reply | app/app/ChatBotScreen.js:116-143 | the bot adds the truthy `bot_response`, and otherwise an error text with the fixed prefix |
| ChatBot.ChatBotScreen.constructor | app/app/ChatBotScreen.js:45-55 | the conversation starts with the greeting, the input empty and nothing loading |
| ChatBot.ChatBotScreen.LoadRecentIncidents | app/app/ChatBotScreen.js:65-84 | a truthy body replaces the incident list; anything else keeps it; loading ends false |
| ChatBot.ChatBotScreen.SendMessage | app/app/ChatBotScreen.js:88-146 | blank input changes nothing; otherwise the user message and the reply are appended with ids equal to positions, the input is cleared, loading ends false, and the request carries the input and the earlier user texts |
| IncidentDetail.SeverityColor | app/app/IncidentDetailScreen.js:187-192 | "medium" is yellow, "high" red, and "low" and every other value the same green |
| IncidentDetail.GetStatusInfo | app/app/IncidentDetailScreen.js:195-203 | step 2 exactly for "resolved", 1 exactly for "under investigation", else 0, each with its colour and text |
| IncidentDetail.StatusKey | app/app/IncidentDetailScreen.js:243 | the header passes the lowercased status, or "submitted" for a falsy status; a truthy non-string throws |
| IncidentDetail.HeaderStepAgreesWithDashboard | app/app/IncidentDetailScreen.js:243 | for every string or missing status the header step equals the admin dashboard's card step |
| IncidentDetail.ErrorText | app/app/IncidentDetailScreen.js:165-172 | the text starts with "Error connecting to chatbot."; without a response it adds " No response received from server.", for another error the thrown message |
| IncidentDetail.ErrorTextShowsStatus | app/app/IncidentDetailScreen.js:167 | two server errors give the same text only when their statuses are equal |
| IncidentDetail.Reply | app/app/IncidentDetailScreen.js:152-179 | the bot adds the truthy `bot_response`, and otherwise an error text with the fixed prefix |
| IncidentDetail.ChatInputFor | app/app/IncidentDetailScreen.js:147 | the sent input is "Regarding incident #", the id, ": " and the typed input, in that order |
| IncidentDetail.IncidentDetailScreen.constructor | app/app/IncidentDetailScreen.js:58-68 | the initial state, with the chat greeting as the only message |
| IncidentDetail.IncidentDetailScreen.Load | app/app/IncidentDetailScreen.js:73-99 | the incident is stored when its request succeeds; the comments are replaced only by a truthy comments body; a failure of either request sets the error; loading ends false |
| IncidentDetail.IncidentDetailScreen.SubmitComment | app/app/IncidentDetailScreen.js:102-124 | a blank comment is not sent; a truthy response is appended and clears the input; a failure alerts and keeps everything; sending ends false |
| IncidentDetail.IncidentDetailScreen.SendChatMessage | app/app/IncidentDetailScreen.js:127-184 | blank input changes nothing; otherwise the user message and the reply are appended with ids equal to positions, and the request carries the prefixed input, the earlier user texts and the incident id |
| Markup.MatchDoubleFrom | app/app/IncidentDetailScreen.js:25 | the lazy `.*?[*][*]` ends at the first `**` reachable without crossing a line terminator |
| Markup.MatchSingleFrom | app/app/IncidentDetailScreen.js:25 | the lazy `.*?[*]` ends at the first `*` reachable without crossing a line terminator |
| Markup.MatchAt | app/app/IncidentDetailScreen.js:25 | the alternation tries `**…**` first, then `*…*`; a match starts with `*`, ends with `*` and has no line terminator |
| Markup.SplitFrom | app/app/IncidentDetailScreen.js:25 | `split` with a capturing pattern: an odd number of pieces, every odd-indexed piece a captured match wrapped in `*` |
| Markup.SplitFromConcat | app/app/IncidentDetailScreen.js:25 | the split pieces concatenate back to the text |
| Markup.PiecesConcat | app/app/IncidentDetailScreen.js:25 | round trip: after `.filter(Boolean)` the pieces are non-empty and concatenate back to the message |
| Markup.ParseMarkdown | app/app/IncidentDetailScreen.js:21-53 | a falsy text gives no segments; otherwise one segment per piece (the same code is app/app/ChatBotScreen.js:10-42) |
| Markup.ParseMarkdownKinds | app/app/IncidentDetailScreen.js:27-52 | heading exactly for a piece wrapped in `**` with every `**` removed; emphasis exactly for the other pieces wrapped in `*` with every `*` removed; otherwise the piece unchanged; id "part-" plus the index |
| Markup.FormattedTextIsClean | app/app/IncidentDetailScreen.js:36-42 | heading text contains no `**` and emphasis text no `*` |
| Markup.ParseMarkdownIdsDistinct | app/app/IncidentDetailScreen.js:35-48 | segment ids are pairwise distinct |
| Markup.CapturedPiecesAreFormatted | app/app/IncidentDetailScreen.js:25-31 | every piece the pattern captured is classified as a heading or an emphasis |
| Markup.RenderEntry | frontend/src/pages/chatbotTrial.jsx:126-188 | an entry is right-aligned exactly when it starts with "User:", and has one rendered part per piece of its display text |
| Markup.WebAgreesWithParseMarkdown | frontend/src/pages/chatbotTrial.jsx:150-182 | the web classification (double asterisk first, then single) agrees piece by piece with `parseMarkdown`: h2 is a heading, h3 an emphasis, span normal, with the same text |
| Markup.ReplacePrefix | frontend/src/pages/chatbotTrial.jsx:127-129 | `replace` of a leading literal removes exactly that prefix |
| Markup.UserEntryDisplay | frontend/src/pages/chatbotTrial.jsx:127-129 | a stored "User: " entry displays as " " plus the input when the input holds no "Saathi AI:" |
| Markup.BotEntryDisplay | frontend/src/pages/chatbotTrial.jsx:127-129 | a stored "Saathi AI: " entry displays as " " plus the reply when the reply holds no "User:" |
| WebChatbot.SendEntries | frontend/src/pages/chatbotTrial.jsx:55-76 | one send adds "User: " plus the input, and "Saathi AI: " plus the reply exactly when the response is ok |
| WebChatbot.SendEntriesAreHistory | frontend/src/pages/chatbotTrial.jsx:55-76 | every history entry keeps one of the two prefixes after a send |
| WebChatbot.EntryRenderedBySender | frontend/src/pages/chatbotTrial.jsx:137-147 | an entry renders as the user's exactly when the user wrote it |
| WebChatbot.ChatbotPage.constructor | frontend/src/pages/chatbotTrial.jsx:6-22 | empty input, history and notes, not loading |
| WebChatbot.ChatbotPage.HandleSend | frontend/src/pages/chatbotTrial.jsx:24-28 | a non-blank input is appended to the local list as the user's and cleared; a blank one changes nothing |
| WebChatbot.ChatbotPage.SendMessage | frontend/src/pages/chatbotTrial.jsx:52-82 | blank input changes nothing; otherwise the user's entry (and, when ok, the reply) is appended, the input cleared, the request carries the history before the new entry, and loading ends false |
| WebChatbot.ChatbotPage.HandleKeyDown | frontend/src/pages/chatbotTrial.jsx:84-88 | Enter when not loading acts as a send (nothing for a blank input; otherwise the entries are added, the input cleared and loading ended); other keys and a pending reply change nothing |
| SimpleChatBot.Reply | app/screens/ChatBotScreen.js:28-31 | a truthy `reply` is shown, a success without one shows "Sorry, I could not understand.", every failure exactly "Error connecting to chatbot."; the text is never falsy |
| SimpleChatBot.SimpleChatBotScreen.constructor | app/screens/ChatBotScreen.js:8-12 | the greeting with id 0, an empty input, not loading |
| SimpleChatBot.SimpleChatBotScreen.SendMessage | app/screens/ChatBotScreen.js:14-35 | blank input changes nothing; otherwise the user message and the bot message are appended with ids equal to positions, the request carries the input and the earlier user texts, and loading ends false |
| ChatRoom.PostFor | frontend/src/pages/Chat.jsx:58-69 | once both blank checks pass, the posted username and content are the trimmed inputs and both are non-empty |
| ChatRoom.ChatPage.constructor | frontend/src/pages/Chat.jsx:6-11 | no messages, empty inputs, not joined, no cursor |
| ChatRoom.ChatPage.LoadMessages | frontend/src/pages/Chat.jsx:23-34 | the list is replaced; the cursor moves to the last message's timestamp when the list is non-empty and is unchanged otherwise; a failure changes nothing |
| ChatRoom.ChatPage.CheckForNewMessages | frontend/src/pages/Chat.jsx:37-53 | no request without a cursor; otherwise the fetched messages are appended after the untouched old list and the cursor moves to the last of them; an empty fetch changes nothing |
| ChatRoom.ChatPage.SendMessage | frontend/src/pages/Chat.jsx:56-80 | nothing is posted unless message and username are non-blank; the trimmed fields are posted; a stored message or an error object that comes back is appended and the input cleared, and the cursor becomes its `timestamp` (empty for an error object, which stops the polls); only a thrown request or parse alerts, and then nothing changes |
| ChatRoom.ChatPage.HandleUsernameSubmit | frontend/src/pages/Chat.jsx:83-89 | a non-blank username joins and loads the messages; a blank one changes nothing |
| ChatRoom.ChatPage.ChangeUsername | frontend/src/pages/Chat.jsx:194-198 | username, messages and the joined flag are cleared; the cursor is kept |
| ChatRoom.JoinWhileListFails | frontend/src/pages/Chat.jsx:23-53 | with the list request failing, a page that joins shows no message, has no cursor and its next poll asks for nothing |
| ChatServer.InsertMultiset | backend/chat/views.py:22 | inserting one message into the ordered list adds exactly that message |
| ChatServer.InsertMembers | backend/chat/views.py:22 | the inserted list holds only the new message and the old ones |
| ChatServer.HeadIsOldest | backend/chat/views.py:22 | in an ascending list the first message is the oldest |
| ChatServer.InsertAscending | backend/chat/views.py:22 | inserting keeps a list ascending |
| ChatServer.OrderByTimestampSpec | backend/chat/views.py:22 | `order_by('timestamp')` returns the same messages (as a multiset), ascending by timestamp |
| ChatServer.NewerThan | backend/chat/views.py:22 | `filter(timestamp__gt=t)` keeps exactly the stored messages newer than t |
| ChatServer.AscendingSlice | backend/chat/views.py:24 | a slice of an ascending list is ascending |
| ChatServer.SplitMultiset | backend/chat/views.py:24 | cutting a list in two splits its messages |
| ChatServer.CutIsOrdered | backend/chat/views.py:24 | in an ascending list everything before a cut is at most as new as everything after it |
| ChatServer.CutIsOrderedAfter | backend/chat/views.py:9 | the same cut, seen from the part after it |
| ChatServer.Cap | backend/chat/views.py:24 | the slice `[:50]` keeps min(n, 50) messages |
| ChatServer.RecentMessages | backend/chat/views.py:18-27 | the result is ascending by timestamp and drawn from the stored messages |
| ChatServer.RecentWithTimestamp | backend/chat/views.py:21-22 | with a timestamp t, every returned message is newer than t and every stored message newer than t is returned |
| ChatServer.RecentWithoutTimestamp | backend/chat/views.py:23-24 | without a timestamp, min(n, 50) messages are returned and none left out is older than one returned: the oldest 50 |
| ChatServer.LatestMessages | backend/chat/views.py:9-15 | the list view's intent: min(n, 50) stored messages, oldest first |
| ChatServer.LatestAreNewest | backend/chat/views.py:9 | no message left out of the list view is newer than one shown: the newest 50 |
| ChatServer.ListAsWritten | backend/chat/views.py:9-15 | the list view as written sends no list: ordering the sliced queryset raises |
| ChatServer.ListAsWrittenShowsNothing | backend/chat/views.py:13 | with at least one stored message the intended list is non-empty and differs from what the view sends |
| ChatServer.ConsecutivePollsAreDisjoint | backend/chat/views.py:22 | polling again with the last timestamp of a result fetches only messages newer than all of that result, so no message is fetched twice |
| Forms.Flag | app/screens/SignupScreen.js:22 | one validator rule: a failed rule records its message under its key, a passing one leaves the errors alone |
| Forms.EmailMatchIff | frontend/src/pages/SignUp.jsx:46 | `/\S+@\S+\.\S+/` matches somewhere exactly when some `@` has a non-white-space character before it and, with only non-white-space in between, a `.` at least two places later followed by one more non-white-space character |
| Forms.EmailExamples | frontend/src/pages/Login.jsx:44 | the unanchored pattern matches "a@b.c" and "see: a@b.c now" but not "a@b" or "a @b.c" |
| Forms.DigitsExamples | frontend/src/pages/SignUp.jsx:48 | `^\d{10}$` accepts exactly ten digits and rejects nine, eleven, or a dash |
| Forms.PasswordRuleCountsCodeUnits | frontend/src/pages/Login.jsx:46 | the length rule counts UTF-16 code units: three emoji pass, six characters always pass, five characters of the Basic Multilingual Plane fail |
| Forms.CredentialErrors | frontend/src/pages/Login.jsx:42-50 | the email error exactly when the email is empty or has no match, the password error exactly when it is empty or shorter than 6, no other key, and empty exactly when both rules hold (also app/screens/LoginScreen.js:12-18) |
| Forms.ServerMessage | frontend/src/pages/Login.jsx:71 | `err.response?.data?.error` when it is a non-empty string, the fallback otherwise |
| Login.Redirect | frontend/src/pages/Login.jsx:67 | "/my-reports" exactly for user type "user", "/admin" for every other type |
| Login.LoginPage.constructor | frontend/src/pages/Login.jsx:22-27 | empty fields, no errors |
| Login.LoginPage.Validate | frontend/src/pages/Login.jsx:42-50 | the errors are rebuilt from scratch by the two rules, and the result is true exactly when both hold |
| Login.LoginPage.HandleLogin | frontend/src/pages/Login.jsx:52-75 | nothing is sent unless valid; success navigates by user type; failure adds `general` (server error or "Something went wrong!") to the errors the handler started with |
| Login.IntendedFailureErrors | frontend/src/pages/Login.jsx:42-72 | the intended failure map: `general` with its message, a field message exactly when that field's rule fails, and `general` alone for a form that passed |
| Login.StaleEmailErrorShown | frontend/src/pages/Login.jsx:52-72 | after "a@b" is rejected and corrected to "a@b.c", a refused login still shows the e-mail error next to `general`, unlike the intended map |
| MobileLogin.LoginScreen.constructor | app/screens/LoginScreen.js:7-10 | empty fields, not loading, no errors |
| MobileLogin.LoginScreen.Validate | app/screens/LoginScreen.js:12-18 | the errors are rebuilt by the two rules, and the result is true exactly when the map is empty |
| MobileLogin.LoginScreen.HandleLogin | app/screens/LoginScreen.js:20-35 | an invalid form returns with only the errors changed; otherwise the credentials are sent, success navigates, failure sets the errors to `general` alone (server error or "Invalid credentials"), and loading ends false |
| SignUp.SignUpErrors | frontend/src/pages/SignUp.jsx:42-57 | one entry exactly per failed rule (names, email, 10-digit phone, 12-digit Aadhar, password; the address is never checked), and empty exactly for a valid form |
| SignUp.SignUpPage.constructor | frontend/src/pages/SignUp.jsx:22-34 | every field empty, no errors or messages |
| SignUp.SignUpPage.Validate | frontend/src/pages/SignUp.jsx:42-57 | the errors are rebuilt from scratch and the result is true exactly for a valid form |
| SignUp.SignUpPage.HandleSubmit | frontend/src/pages/SignUp.jsx:59-93 | an invalid form is not posted; status 201 shows the success message, resets every field to "" and goes to /login; an error response shows its `detail` or a fixed text; no response shows "An unexpected error occurred." |
| MobileSignup.Rank | app/screens/SignupScreen.js:22-30 | the positions lie in 0..9, and position 9 is `general` alone, after all nine checks |
| MobileSignup.RankInjective | app/screens/SignupScreen.js:22-30 | distinct fields have distinct positions |
| MobileSignup.RuleAt | app/screens/SignupScreen.js:22-30 | the rule checked at a position is the field of that position |
| MobileSignup.CheckedKeys | app/screens/SignupScreen.js:22-30 | after the first n checks exactly the failed rules among them have an entry, holding their message |
| MobileSignup.ValidIffNoFailure | app/screens/SignupScreen.js:22-32 | a form is valid exactly when no rule fails |
| MobileSignup.SignupErrors | app/screens/SignupScreen.js:20-33 | an entry exactly for each field whose rule fails (seven non-empty fields without format checks, the email pattern, the password length), each with its message, and empty exactly for a valid form |
| MobileSignup.ChecksInOrder | app/screens/SignupScreen.js:21-30 | the nine checks written one after the other record exactly those errors |
| MobileSignup.SuccessAlert | app/screens/SignupScreen.js:44 | `data.message` when it is a non-empty string, "Account created!" otherwise |
| MobileSignup.SignupScreen.constructor | app/screens/SignupScreen.js:6-18 | every field empty, not loading, no errors |
| MobileSignup.SignupScreen.Validate | app/screens/SignupScreen.js:20-33 | the errors are rebuilt from scratch and the result is true exactly for a valid form |
| MobileSignup.SignupScreen.HandleSignup | app/screens/SignupScreen.js:39-50 | an invalid form returns with only the errors changed; otherwise the form is sent, success alerts and moves to the tabs, failure sets the errors to `general` alone (server error or "Check your details"), and loading ends false |
| UploadPage.GeolocationMessage | frontend/src/pages/UploadPage.jsx:49-61 | codes 1, 2 and 3 give the denied, unavailable and timed-out messages; any other code keeps "Unable to retrieve location." |
| UploadPage.GeolocationMessageNamesTheCode | frontend/src/pages/UploadPage.jsx:49-61 | the fallback message appears exactly for unknown codes, and a known code's message belongs to no other code |
| UploadPage.GateError | frontend/src/pages/UploadPage.jsx:78-88 | no error exactly when a file and a location are present; a missing file is reported first, then a missing location |
| UploadPage.DroppedImage | frontend/src/pages/UploadPage.jsx:135-139 | a drop selects a file exactly when there is one and the first file's type starts with "image/", and then it is the first file |
| UploadPage.Get | frontend/src/pages/UploadPage.jsx:91-95 | a field is found exactly when some entry has that name |
| UploadPage.UploadForm | frontend/src/pages/UploadPage.jsx:91-95 | four entries: the image, the title, and latitude and longitude written as strings |
| UploadPage.UploadPageState.constructor | frontend/src/pages/UploadPage.jsx:6-14 | no file, empty title and message, no location, nothing in progress |
| UploadPage.UploadPageState.HandleFileSelect | frontend/src/pages/UploadPage.jsx:20-24 | the first chosen file (none for an empty list) is selected and the message is cleared |
| UploadPage.UploadPageState.HandleDrop | frontend/src/pages/UploadPage.jsx:132-140 | only a first file of an image type is taken, clearing the message; otherwise nothing changes |
| UploadPage.UploadPageState.GetLocation | frontend/src/pages/UploadPage.jsx:26-74 | unsupported shows its error; a position is stored; a position error shows the message for its code; the request ends not in progress |
| UploadPage.UploadPageState.HandleUpload | frontend/src/pages/UploadPage.jsx:76-126 | a failed check changes only the message; otherwise the form is posted, success clears file, title and location and goes to /photos, failure shows "Upload failed. Please try again." and keeps them, and uploading ends false |
| AdminDashboard.Dashboard.constructor | frontend/src/pages/AdminDashboard.jsx:15-21 | no incidents, filter "All", no flagged incidents, and the counters agree with the empty list |
| JsStrings.TrimStart | frontend/src/pages/Chat.jsx:67-68 | the result is a suffix of the input, what was removed is blank, and it does not begin with white space |
| JsStrings.TrimEnd | frontend/src/pages/Chat.jsx:67-68 | the result is a prefix of the input, what was removed is blank, and it does not end with white space |
| JsStrings.TrimEmptyIffBlank | frontend/src/pages/Chat.jsx:58 | `!s.trim()` holds exactly when every character of `s` is white space |
| JsStrings.TrimHasNoOuterWhiteSpace | frontend/src/pages/Chat.jsx:67-68 | a non-empty trimmed text starts and ends with a character that is not white space |
| JsStrings.IndexOf | frontend/src/pages/chatbotTrial.jsx:128-129 | the leftmost occurrence at or after the start index, and none exactly when there is no occurrence there |
| JsStrings.ReplaceFirstSpec | frontend/src/pages/chatbotTrial.jsx:128-129 | `replace` with a string pattern leaves a text without the pattern alone and otherwise splices the replacement over the leftmost occurrence only |
| JsStrings.RemoveStarsLeavesNoStar | app/app/IncidentDetailScreen.js:42 | after `replace(/[*]/g, '')` no `*` is left |
| JsStrings.RemoveStarsKeepsOthers | app/app/IncidentDetailScreen.js:42 | after `replace(/[*]/g, '')` every other character is kept, in order |
| JsStrings.RemovePairsLeavesNoPair | app/app/IncidentDetailScreen.js:36 | after `replace(/[*][*]/g, '')` no two asterisks are adjacent |
| JsStrings.NatToStringRoundTrip | app/app/IncidentDetailScreen.js:35 | reading the decimal numeral of an index back gives the index |
| JsStrings.NatToStringInjective | app/app/IncidentDetailScreen.js:35-47 | distinct indices give distinct numerals |
| JsStrings.JsLength | frontend/src/pages/SignUp.jsx:52 | `length` lies between the number of characters and twice that, and is 0 only for the empty string |
| JsStrings.JsLengthWithoutAstral | frontend/src/pages/SignUp.jsx:52 | without characters outside the Basic Multilingual Plane the length is the number of characters |
| JsStrings.JsLengthAllAstral | frontend/src/pages/SignUp.jsx:52 | a string of astral characters has twice as many code units as characters |
| JsStrings.Lower | frontend/src/pages/AdminDashboard.jsx:243-245 | same length, each capital ASCII letter lowered and every other character kept |
| JsValues.Set | app/app/RecentIncident1.js:343-347 | after `o.key = x` the key is present with value `x` and every other property is unchanged |
| JsValues.OrElse | frontend/src/pages/SignUp.jsx:87 | `x || fallback`: a truthy `x` is kept, a falsy one replaced |
| JsValues.AtMostMonotone | app/app/RecentIncident1.js:232 | a distance within a radius is within every larger radius |
| Sequences.FilterPartition | frontend/src/pages/AdminDashboard.jsx:99-121 | three filters whose tests split every element partition the list's multiset |
| Sequences.FilterIsSubsequence | frontend/src/pages/AdminDashboard.jsx:224-226 | a filtered list is a subsequence of its input |
| Sequences.FilterMultiset | frontend/src/pages/AdminDashboard.jsx:224-226 | a filter keeps each passing element exactly as often as it occurs and no other element |

## Left out

- The haversine formula (app/app/RecentIncident1.js:390-401) is floating-point trigonometry. The distance is an uninterpreted function, and every filter property holds for any distance.
- Number and date formatting is not modelled: `toFixed`, `toLocaleString` and `new Date`. The current ISO time is a parameter. `Number.prototype.toString` of the upload coordinates is the `show` parameter.
- Network I/O is not modelled: axios and fetch calls, tokens in AsyncStorage or localStorage, and `app/api/auth.js`. Each request's outcome is a method parameter, and what would be sent is a method result.
- Device and browser APIs are not modelled:
  - expo-location permissions. Only the granted or denied answer and the position are inputs.
  - MapView animation.
  - Camera capture (frontend/src/pages/UploadPage.jsx:142-190).
  - Speech recognition (frontend/src/pages/chatbotTrial.jsx:30-50).
  - Resizing, and the DOM reset of the file input (frontend/src/pages/UploadPage.jsx:109).
- The `setInterval` polling (frontend/src/pages/Chat.jsx:100), the 1500 ms redirect timer of the upload page and React's asynchronous state updates are not modelled. Each handler, poll and callback is one atomic step, and a scheduled redirect is returned as a result.
- The `Math.random` suffix of temporary ids is a parameter.
- The marker range check (app/app/RecentIncident1.js:684-697) only affects rendering. It is the one place where coordinate ranges are checked, and neither filter checks them.
- `JsStrings.Lower` lowercases ASCII letters only, not all of Unicode.
- `JsStrings`: a `char` is a Unicode scalar value. Only `length` (`JsStrings.JsLength`) counts UTF-16 code units; `trim`, `\s`, the patterns and indexing see an astral character as one character, and a lone surrogate cannot be represented.
- `RecentIncidents.RecentIncidentsScreen.HandleAddComment`: when a spread throws, the screen crashes. The model reports this as `crashed` and leaves the fields as they were; the torn-down screen is not modelled.
- `IncidentDetail.IncidentDetailScreen.Load`: a truthy comments body that is not an array is not modelled, because the comments endpoint sends a list. A falsy body and an array body are.
- `ChatRoom.ChatPage.SendMessage`: a JSON body that is not an object is not modelled, and an error object whose `timestamp` is present but not a string is treated as one without it.
- `ChatRoom.ChatPage.LoadMessages`: a JSON body that is not a list is not modelled. The list view never sends JSON as written (see Findings).
- Statuses, severities and `user_type` are modelled as strings or absent values. Other JSON types in those fields are not modelled.
- `WebChatbot`: `String(bot_response)` is left to the caller, which passes the converted text inside the ok outcome.
- `SignUp.SignUpPage.HandleSubmit`: an error response whose body is `null` throws inside the `catch`. The model assumes the body is an object.
- `ChatServer`: timestamps are integers, and Django's parsing of the query parameter is not modelled. The order of messages with equal timestamps is not modelled.
- `ChatServer.LatestMessages`: models the evidently intended list view (see Findings); the view as written is `ChatServer.ListAsWritten`.
- The form fields' `handleChange` edits are plain field assignments and have no methods of their own.
- `VRViewer.jsx`, the presentation-only screens (`Home.jsx`, `PhotoList.jsx`, `app/app/index.tsx`, `_layout.tsx`, style sheets) and the Django code that only wraps the framework (`backend/photos/*`, `backend/chat/models.py`, `admin.py`, `urls.py`) are not part of this model.

## Where the code and its description differ

The model follows the code:

- **One parse function.** `parseMarkdown` is identical in app/app/IncidentDetailScreen.js:21-53 and app/app/ChatBotScreen.js:10-42, and `Markup.ParseMarkdown` models both.
- **Unreachable message.** The message "Failed to filter incidents by location." (app/app/RecentIncident1.js:247) is unreachable in the model. The list holds only normalised objects, so reading `location` cannot throw, and the inner `try` catches any error in the distance computation.

## Findings

Each row has a member for the code as written and one for the evidently intended behaviour. The screen classes model the code as written; the corrected definitions stand beside them with their properties proved.

| source | as written | input that shows it | evidently intended | confidence | as-written member | corrected member |
|---|---|---|---|---|---|---|
| backend/chat/views.py:13 | `order_by` is applied to the queryset already sliced at line 9, which Django refuses, so every list request fails and a joining page never loads the room | any GET of the message list with one stored message | the newest 50 messages, oldest first | high; not executed | ChatServer.ListAsWritten | ChatServer.LatestMessages |
| frontend/src/pages/Login.jsx:68-72 | a refused login spreads the `errors` captured when the handler started, so a field message that `validate` has just cleared comes back | submit "a@b", correct it to "a@b.c", submit again and get refused | the map `validate` has just built, plus `general` | medium; not executed | Login.StaleEmailErrorShown | Login.IntendedFailureErrors |
| app/app/RecentIncident1.js:214-237 | neither radius filter checks coordinate ranges | an incident at latitude 1000 that the distance function puts inside the radius | out-of-range coordinates are skipped | medium; not executed | RecentIncidents.OutOfRangeIsKept | RecentIncidents.NearbyCheckedSpec |
| app/app/RecentIncident1.js:336 | the `'latitude' in` test throws on a location that parses to a non-object, and the whole fetch fails | the location text "5" | the null location, as for an unparseable text | medium; not executed | RecentIncidents.NonObjectLocationThrows | RecentIncidents.NormalizeLocationTotal |
