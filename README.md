# Chat app core, modelled in Dafny

A model of the small amount of logic in a React Native chat application
whose storage, live sync and phone authentication are all done by a hosted
backend. What is modelled:

- **Conversation id** (`conversation_id.dfy`, module `ConversationId`): the
  key of a two-party chat document, `[me, peer].sort().join("_")`, as a pure
  function, with JavaScript's default string order written out. It is
  proved symmetric, proved to be "lesser uid, `_`, greater uid", and proved
  injective for uids without `_`; a concrete pair of uids containing `_`
  shows two conversations sharing one key.
- **Chat screen** (`chat_screen.dfy`, module `Chat`): a class holding the
  screen's `messages`, `inputText` and `showEmojiSelector`, whose methods
  are the snapshot listener, `onSend`, the Send button, typing and the emoji
  selector. Message formatting (`createdAt` becomes a `Date`), JavaScript's
  `trim` and the sent/received test are pure functions with lemmas.
- **Login screen** (`login.dfy`, module `Login`): the two regular
  expressions as an anchored digit-run matcher proved equal to their plain
  meaning, the `+91` prefix, the joined-code length check, the slot update
  of `handleCodeChange` and its focus move, the post-confirmation routing,
  and a class for the screen state (`phoneNumber`, `code`, `confirm`) whose
  invariant is "six slots, digits only".
- **Navigator** (`app_navigator.dfy`, module `Navigator`): the
  `initializing`/`user` state changed by the auth callback, what is
  rendered, the initial route, and the four declared routes, with the
  `navigate` targets of the other screens checked against them.
- **Message sort** (`helpers.dfy`, module `Helpers`): an in-place sort of an
  array of messages by timestamp that returns the same array, proved sorted
  and a permutation of its input; the comparator's millisecond values are
  modelled by an integer key in nanoseconds (exact arithmetic, see
  "## Left out" for rounding).

Calls into the backend (the document store, the auth provider) are not
modelled as code: their answers are parameters of the methods that would
await them (`SignIn`'s `answer`, `ConfirmCode`'s `answer` and `lookup`,
`OnSnapshot`'s `snapshot`), and the writes they would perform are returned
as values (`ChatWrite`, the submitted phone number or code). The clock of
the Send button is the parameter `now`.

Behaviour of the code worth noting:
- Sending does not change the local message list: `onSend` only writes,
  and the list changes when the next snapshot arrives.
- The code check only tests that the six slots joined are six characters
  long; that they are digits follows from the guard on each slot
  (`Login.AcceptedCodeIsSixDigits`, used in `Login.LoginScreen.ConfirmCode`).
- Where new messages land relative to old ones is decided by the chat
  library's `append`, which is not part of this model.

## Model

| member | source | states |
|---|---|---|
| ConversationId.LexLessEq | src/components/chat/ChatScreen.js:29 | JavaScript's default string order (≤) used by `sort()`, compared character by character with a proper prefix first; total, antisymmetric and reflexive by the Lex* lemmas |
| ConversationId.LexTotal | src/components/chat/ChatScreen.js:29 | the string order used by `sort()` relates any two uids one way or the other |
| ConversationId.LexAntisymmetric | src/components/chat/ChatScreen.js:29 | two uids that each sort no later than the other are equal |
| ConversationId.LexReflexive | src/components/chat/ChatScreen.js:29 | a uid sorts no later than itself |
| ConversationId.SortPair | src/components/chat/ChatScreen.js:29 | `[a, b].sort()` holds exactly `a` and `b` (same multiset), the lesser first |
| ConversationId.Join | src/components/chat/ChatScreen.js:29 | `Array.prototype.join(sep)`: no parts give "", one part gives itself, otherwise parts with `sep` between them; its result for two parts is stated by `ConversationId.ChatIdShape` |
| ConversationId.ChatId | src/components/chat/ChatScreen.js:29 | the key is as long as both uids plus one separator |
| ConversationId.ChatIdSymmetric | src/components/chat/ChatScreen.js:29 | id(a, b) == id(b, a): the key does not depend on who opens the chat |
| ConversationId.ChatIdShape | src/components/chat/ChatScreen.js:29 | the key is the lesser uid, one "_", then the greater uid |
| ConversationId.FirstSeparatorAt | src/components/chat/ChatScreen.js:29 | in `x + "_" + y` with no "_" in x, the first "_" follows x |
| ConversationId.SplitAtFirstSeparator | src/components/chat/ChatScreen.js:29 | a "_"-free prefix and the rest are recovered from `x + "_" + y` |
| ConversationId.ChatIdInjective | src/components/chat/ChatScreen.js:29 | for "_"-free uids, equal keys mean the same pair of people |
| ConversationId.ChatIdCollidesWithSeparatorInUid | src/components/chat/ChatScreen.js:29 | with "_" inside uids, ("a_b","c") and ("a","b_c") share the key "a_b_c" |
| Chat.ToDate | src/components/chat/ChatScreen.js:48 | `new Date(message.createdAt)`: a Date of the same instant |
| Chat.FormatMessage | src/components/chat/ChatScreen.js:46-49 | the `map` callback `{...message, createdAt: new Date(message.createdAt)}`; its effect on each message is stated by `Chat.FormatMessages` |
| Chat.FormatMessages | src/components/chat/ChatScreen.js:46-49 | same count and order; id, text and sender unchanged; `createdAt` becomes a Date of the same instant |
| Chat.FormatMessagesAppend | src/components/chat/ChatScreen.js:46-49 | formatting works message by message: it commutes with concatenation |
| Chat.FormatMessagesKeepsDates | src/components/chat/ChatScreen.js:46-49 | messages already carrying a Date are left exactly as they are |
| Chat.FormatMessagesIdempotent | src/components/chat/ChatScreen.js:46-49 | formatting twice equals formatting once |
| Chat.IsJsWhitespace | src/components/chat/ChatScreen.js:180 | the characters `trim()` strips: ECMAScript WhiteSpace (tab, vertical tab, form feed, space, no-break space, byte order mark, the space separators) and LineTerminator (LF, CR, U+2028, U+2029); used by `Chat.TrimStart`, `Chat.TrimEnd` and `Chat.Trim` |
| Chat.TrimStart | src/components/chat/ChatScreen.js:180 | a suffix of the input; everything dropped is whitespace; the result is empty or starts with a non-whitespace character |
| Chat.TrimEnd | src/components/chat/ChatScreen.js:180 | a prefix of the input; everything dropped is whitespace; the result is empty or ends with a non-whitespace character |
| Chat.Trim | src/components/chat/ChatScreen.js:180 | `trim()` is a slice of the input whose cut-off ends are all whitespace and which neither starts nor ends with whitespace |
| Chat.TrimStartEmptyIffBlank | src/components/chat/ChatScreen.js:180 | stripping leading whitespace leaves nothing iff the input is all whitespace |
| Chat.TrimEndEmptyIffBlank | src/components/chat/ChatScreen.js:180 | stripping trailing whitespace leaves nothing iff the input is all whitespace |
| Chat.TrimEmptyIffBlank | src/components/chat/ChatScreen.js:180 | `inputText.trim()` is falsy iff the input is empty or whitespace only |
| Chat.IsReceived | src/components/chat/ChatScreen.js:64 | the `isReceived` test of `renderBubble`; its meaning is stated by `Chat.ReceivedOnExactlyOneSide` |
| Chat.ReceivedOnExactlyOneSide | src/components/chat/ChatScreen.js:64 | a message counts as received iff its sender is not the viewer; each participant's message is received by exactly the other |
| Chat.ChatScreen.constructor | src/components/chat/ChatScreen.js:21-23 | the screen starts with no messages, empty input, selector closed |
| Chat.ChatScreen.DocId | src/components/chat/ChatScreen.js:29 | the subscribed document's key, equal to the key computed with the participants swapped; `OnSend` writes to this same key (line 43) |
| Chat.ChatScreen.OnSnapshot | src/components/chat/ChatScreen.js:32-37 | an existing document replaces `messages` wholesale; a missing one leaves it unchanged; nothing else changes |
| Chat.ChatScreen.OnSend | src/components/chat/ChatScreen.js:42-60 | writes the subscribed document with the local list and the formatted new messages; changes no screen state |
| Chat.ChatScreen.PressSend | src/components/chat/ChatScreen.js:179-189 | blank input: nothing sent, input kept; otherwise exactly one message with the input's text from the current uid (drawn as sent) and the input becomes "" |
| Chat.ChatScreen.ChangeText | src/components/chat/ChatScreen.js:173 | typing sets the input and nothing else |
| Chat.ChatScreen.OpenEmojiSelector | src/components/chat/ChatScreen.js:166 | the emoji button opens the selector |
| Chat.ChatScreen.CloseEmojiSelector | src/components/chat/ChatScreen.js:155 | the Close button closes the selector |
| Chat.ChatScreen.RequestCloseEmojiSelector | src/components/chat/ChatScreen.js:141-143 | the modal's close request flips the selector |
| Chat.ChatScreen.PickEmoji | src/components/chat/ChatScreen.js:148-151 | the input becomes old input ++ emoji and the selector closes |
| Chat.BothSidesShareDocument | src/components/chat/ChatScreen.js:28-30 | A's screen with B and B's screen with A subscribe to (and, through `OnSend`, write) one document |
| Login.MatchesDigitRun | src/components/Auth/Login.js:25-26 | `RegExp.prototype.test` for the anchored pattern `^\d{min,max}$` (`/^\d{10}$/` here and `/^\d*$/` at line 76), consuming one digit at a time; its meaning is stated by `Login.MatchesDigitRunIff` |
| Login.MatchesDigitRunIff | src/components/Auth/Login.js:25-26 | the anchored run `^\d{min,max}$` matches iff all characters are digits and the length is within the bounds |
| Login.PhonePattern | src/components/Auth/Login.js:25-26 | `/^\d{10}$/` accepts iff exactly ten characters, all '0'..'9' |
| Login.DigitsPattern | src/components/Auth/Login.js:76 | `/^\d*$/` accepts iff every character is a digit (the empty value included) |
| Login.FormattedPhone | src/components/Auth/Login.js:33 | the submitted number is "+91" followed by the entered number |
| Login.Concat | src/components/Auth/Login.js:51 | `code.join("")` is no shorter than any slot, and empty iff every slot is empty |
| Login.CodeAccepted | src/components/Auth/Login.js:52 | the guard passes iff the joined code has length six; six empty slots never pass |
| Login.ConcatAllDigits | src/components/Auth/Login.js:51 | joining digit-only slots gives a digit-only code |
| Login.AcceptedCodeIsSixDigits | src/components/Auth/Login.js:51-55 | with digit-only slots, an accepted code is exactly six digits |
| Login.ConcatLengthOneCharSlots | src/components/Auth/Login.js:51 | with slots of at most one character, the joined length is at most the slot count, and equal iff every slot is filled |
| Login.CodeAcceptedIffAllSlotsFilled | src/components/Auth/Login.js:51-55 | with six one-character slots, the code is submitted iff all six are filled |
| Login.CodeAfterChange | src/components/Auth/Login.js:75-79 | a digit-only value sets exactly slot `index`, all other slots and the length unchanged; any other value changes nothing |
| Login.FocusAfterChange | src/components/Auth/Login.js:81-84 | focus moves to slot index+1 iff the value is digit-only, non-empty and index < 5 |
| Login.SlotsStayDigits | src/components/Auth/Login.js:76-79 | a slot update keeps every slot digit-only |
| Login.PostConfirmNavigation | src/components/Auth/Login.js:64-68 | "Dashboard" when the profile exists, else "Detail" with `{uid}`; both are declared routes |
| Login.LoginScreen.constructor | src/components/Auth/Login.js:17-19 | empty phone, six empty slots, no pending confirmation |
| Login.LoginScreen.CurrentMode | src/components/Auth/Login.js:103 | phone entry iff `confirm` is null |
| Login.LoginScreen.ChangePhone | src/components/Auth/Login.js:112 | typing sets the phone number |
| Login.LoginScreen.SignIn | src/components/Auth/Login.js:23-47 | a request is sent iff the number is ten digits, and it is "+91" ++ number; a rejected number or a failed request leaves `confirm`, hence the mode, unchanged |
| Login.LoginScreen.ChangeCode | src/components/Auth/Login.js:75-86 | the slots become `CodeAfterChange`, the focus move is `FocusAfterChange`, slots stay six digit-only strings |
| Login.LoginScreen.ConfirmCode | src/components/Auth/Login.js:49-73 | submits the joined code iff it has length six and a verification is pending, and a submitted code is six digits; navigates only after a successful confirm and lookup, to the profile-dependent route |
| Navigator.InitialRoute | src/navigation/AppNavigator.js:27 | "Dashboard" iff a user is present, else "Login"; always a declared route |
| Navigator.RoutesAreFourDistinct | src/navigation/AppNavigator.js:28-46 | the declared routes are exactly Login, Detail, Dashboard and ChatScreen, each once |
| Navigator.DashboardTargetsDeclared | src/components/Dashboard/Dashboard.js:56-67 | the directory screen's targets (ChatScreen, Login) are declared routes |
| Navigator.DetailTargetsDeclared | src/components/Auth/Detail.js:31 | the profile form's target (Dashboard) is a declared route |
| Navigator.AppNavigator.constructor | src/navigation/AppNavigator.js:12-13 | starts initializing with no user |
| Navigator.AppNavigator.OnAuthStateChanged | src/navigation/AppNavigator.js:15-23 | every callback sets `user` to its value; `initializing` becomes false and no method makes it true again |
| Navigator.AppNavigator.Rendered | src/navigation/AppNavigator.js:24-27 | nothing while initializing; otherwise the stack, with `initialRouteName` a declared route, "Dashboard" iff a user is present (read by the stack when it mounts only); nothing rendered implies no user yet |
| Helpers.TimeMillis | src/utils/helpers.js:13-14 | the comparator's operand: `toMillis()` of a Firestore Timestamp, or the millisecond value of a plain timestamp; tied to the key by `Helpers.KeyScalesMillis` |
| Helpers.Key | src/utils/helpers.js:13-15 | the integer sort key; `Helpers.KeyOrdersLikeComparator` states that it orders like the comparator |
| Helpers.KeyScalesMillis | src/utils/helpers.js:13-14 | the integer key is the comparator's (real-valued) millisecond value times 10^6 |
| Helpers.KeyOrdersLikeComparator | src/utils/helpers.js:12-16 | comparing keys gives the sign of `timestampA - timestampB` |
| Helpers.SortMessagesByTimestamp | src/utils/helpers.js:10-18 | in place: returns the argument array, now non-decreasing by timestamp and a permutation of its old contents |

## Left out

- The document store and the auth provider (`onSnapshot`, `set`, `get`, `signInWithPhoneNumber`, `confirm.confirm`, `signOut`): network calls; their answers are method parameters and their requests are returned values.
- The chat library's `append`: its code is not part of this model, so `ChatWrite` keeps the local list and the new messages side by side and no claim is made about their order in the stored document.
- Subscription teardown, delivery timing and concurrent writers (last writer wins on the whole list): asynchrony and concurrency.
- A present chat document without a `messages` field: every write sets that field, so the model's snapshot always carries a list.
- `formatTimestamp`, `renderTime`'s locale strings, `generateKey` (randomness), the fade animation, alerts and log lines: presentation, locale and randomness.
- `createdAt` and `timestamp` values that are strings parsed by `new Date(...)` (and invalid dates, whose `NaN` breaks the comparator): date parsing is foreign. `Helpers.Timestamp` has Firestore Timestamps and plain millisecond values; `Chat.CreatedAt` has only Dates and millisecond counts, since the chat screen formats only messages it composes itself and passes the local list through unread (a snapshot message's Firestore Timestamp, which `renderTime` hands to `formatTimestamp`, is presentation).
- Helpers.KeyScalesMillis: takes `toMillis()` to be seconds·1000 + nanoseconds/10^6 (the SDK's code is not part of this model) and computes it with exact reals, whereas the program uses doubles.
- Helpers.KeyOrdersLikeComparator: double rounding is not modelled: near present-day times neighbouring doubles are about 244 ns apart, so two timestamps that close tie in the program (and the stable sort keeps their input order) while the model's key orders them.
- Helpers.SortMessagesByTimestamp: sorts by the exact key of the line above, so for timestamps closer than the double spacing its order can differ from the program's; it also does not state stability (the JavaScript sort is stable; only sortedness and permutation are proved).
- Strings are sequences of Unicode scalar values, not UTF-16 code units: for uids and inputs outside the Basic Multilingual Plane the JavaScript string order and lengths can differ.
- Login.LoginScreen.ChangeCode: requires `index < 6`, because the screen only calls it for its six slot inputs; the focus move is returned instead of calling a `TextInput` ref.
- The profile form (`Detail.js`), the directory (`Dashboard.js`) and `App.js`: fetch/display glue and a container; only their `navigate` targets are modelled.
