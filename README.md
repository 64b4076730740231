# vibeweave-agent: filter chain, command table and reconnect decision

The agent is a private WhatsApp bot built on the Baileys client. Its process
registers three event handlers on the client socket. Two of them are modelled
here; the third, `creds.update`, only saves credentials.

- **`messages.upsert`** (`dispatch.dfy`, module `Dispatch`). The handler takes
  the first message of a batch through an ordered chain of early returns:
  - a payload is present;
  - a chat id is present;
  - the chat is not a group (`@g.us`) and not a LID chat (`@lid`);
  - the owner's own account sent the message;
  - the chat id starts with the owner's number;
  - a non-empty text is present;
  - the trimmed text does not start with the 🤖 marker and does start with `/`.

  A message that passes every guard is answered in the same chat. The keyword
  is the text after the slash, trimmed and lower-cased; `ping`, `hi` and `time`
  each have a fixed reply, and anything else is echoed after
  "Command received: ". Every reply starts with 🤖, so a reply that comes back
  as an inbound message is never answered.
- **`connection.update`** (`connection.dfy`, module `Connection`). A `close`
  update restarts the bot unless its status code is Baileys' `loggedOut`
  (401). A missing status code counts as "not logged out". An `open` update
  only announces that the agent is ready.
- **String operations** (`text.dfy`, module `Text`). The model defines
  JavaScript's `trim()`, `toLowerCase()`, `startsWith` and `endsWith` on
  strings, with the lemmas the handler's proofs need.
- **`wrappers.dfy`** (module `Wrappers`) holds `Option` and `Result`.

Everything modelled is pure decision logic, so the model is made of functions
and lemmas. Effects become values:
- the message handler returns the `Send` it would hand to `sock.sendMessage`, or none;
- the connection handler returns a `Reaction` (restart, stay closed, ready or ignore).

Points of the code worth knowing:
- the owner test is a prefix test on the chat id (`OwnerTestIsPrefix`), so a chat with a longer number that starts with the owner's digits also passes;
- LID chats are rejected, right after group chats;
- a close that is not a logout restarts the bot at once: there is no delay and no guard against repeated restarts (`EveryCloseRestarts`);
- a logout close only logs: it neither restarts the bot nor exits the process.

## Model

| member | source | states |
|---|---|---|
| Text.TrimStart | src/index.ts:76 | Result is no longer than the input and does not start with whitespace |
| Text.TrimEnd | src/index.ts:76 | Result is no longer than the input and does not end with whitespace |
| Text.Trim | src/index.ts:76 | `trim()` result is no longer than the input and has whitespace at neither end |
| Text.LowerChar | src/index.ts:86 | No upper-case ASCII letter is left; a character is either kept or is an `A`-`Z` letter moved up by 32 to its lower-case form; whitespace is kept both ways |
| Text.Lower | src/index.ts:86 | `toLowerCase()` keeps the length and lower-cases each character in place |
| Text.TrimStartOf | src/index.ts:76 | Leading whitespace before a non-whitespace start is exactly what `TrimStart` removes |
| Text.TrimEndOf | src/index.ts:76 | Trailing whitespace after a non-whitespace end is exactly what `TrimEnd` removes |
| Text.TrimStartSplit | src/index.ts:76 | The input is all-whitespace text followed by `TrimStart`'s result |
| Text.TrimEndSplit | src/index.ts:76 | The input is `TrimEnd`'s result followed by all-whitespace text |
| Text.TrimSplit | src/index.ts:76 | Every string is whitespace + `trim()` result + whitespace |
| Text.TrimOf | src/index.ts:76 | Whitespace around a trimmed string is exactly what `trim()` removes |
| Text.TrimEndKeepsHead | src/index.ts:76 | A non-whitespace first character survives `TrimEnd` |
| Text.TrimKeepsHead | src/index.ts:76 | A non-whitespace first character survives `trim()` |
| Text.TrimIdempotent | src/index.ts:76 | Trimming twice is trimming once |
| Text.LowerAppend | src/index.ts:86 | Lower-casing distributes over concatenation |
| Text.LowerTrim | src/index.ts:86 | Lower-casing and trimming commute |
| Text.LowerOfLowerCase | src/index.ts:86 | Text with no upper-case letter is unchanged by lower-casing |
| Text.LowerIdempotent | src/index.ts:86 | Lower-casing twice is lower-casing once |
| Text.LowerStartsWith | src/index.ts:79-82 | A letter-free prefix is found in a string exactly when it is found in the string's lower-cased form |
| Dispatch.MessageText | src/index.ts:70-74 | The plain text wins when non-empty, else the extended text; no text exactly when both are absent or empty; a result is never empty |
| Dispatch.ScreenChat | src/index.ts:53-68 | An accepted chat id is the key's own id |
| Dispatch.ScreenText | src/index.ts:76-82 | An accepted text is the trimmed text and starts with `/` |
| Dispatch.Screen | src/index.ts:50-82 | An accepted message yields its own chat id, and as command text the trimmed text of the message, which starts with `/` |
| Dispatch.Keyword | src/index.ts:86 | The keyword is trimmed, already lower-case and shorter than the command text |
| Dispatch.Reply | src/index.ts:88-105 | Every reply starts with the 🤖 marker |
| Dispatch.HandleMessage | src/index.ts:48-107 | A reply goes to the chat the message came from and starts with the marker |
| Dispatch.HandleUpsert | src/index.ts:48-51 | An empty batch gets no reply; a reply goes to the first message's chat |
| Dispatch.ScreenChatIff | src/index.ts:56-68 | The chat guards pass exactly when all five chat conditions hold |
| Dispatch.ScreenTextIff | src/index.ts:76-82 | The text guards pass exactly when the trimmed text is a slash command and not a bot reply |
| Dispatch.ReplyIffActionable | src/index.ts:50-107 | A reply is sent exactly when every guard of the chain holds (both directions) |
| Dispatch.GroupChatRejectedFirst | src/index.ts:56-59 | A group chat is rejected as a group, before the sender, the owner or the text is checked |
| Dispatch.LidChatRejectedSecond | src/index.ts:59-62 | A LID chat that is not a group is rejected as LID, before the remaining checks |
| Dispatch.NoReplyWithoutContent | src/index.ts:50-74 | No payload, no chat id or no text: no reply |
| Dispatch.NoReplyInGroupOrLidChat | src/index.ts:58-62 | Group and LID chats never get a reply |
| Dispatch.NoReplyUnlessOwner | src/index.ts:64-68 | Not sent by the owner's account, or chat id not starting with the owner's number: no reply |
| Dispatch.NoReplyUnlessSlashCommand | src/index.ts:76-82 | Trimmed text starting with the marker, or not starting with `/`: no reply |
| Dispatch.WhitespaceOnlyText | src/index.ts:74-82 | Text of only whitespace passes the emptiness test but is rejected as not a command |
| Dispatch.TextAnswered | src/index.ts:70-107 | A message whose text (plain field, or extended field as fallback) and chat pass both guard stages is answered in its chat with the table's reply for its keyword |
| Dispatch.TextIgnored | src/index.ts:56-82 | A message without text, or whose chat or text fails a guard, is not answered |
| Dispatch.ExtendedCommandAnswered | src/index.ts:70-107 | With the plain field absent or empty, a padded slash command in the extended field is answered with the reply for the lower-cased word |
| Dispatch.OwnerChatAccepted | src/index.ts:56-68 | A private chat id whose number starts with the owner's, sent from the owner's account, passes the chat guards |
| Dispatch.PrivateChatId | src/index.ts:59-62 | Private chat ids (`…@s.whatsapp.net`) are neither group nor LID ids |
| Dispatch.SlashIsNotMarker | src/index.ts:79-82 | A slash command never counts as a bot reply |
| Dispatch.TrimPaddedCommand | src/index.ts:76 | The trimmed form of a padded command is the slash, the inner padding and the word |
| Dispatch.KeywordOfPadded | src/index.ts:86 | The keyword of slash + whitespace + word is the lower-cased word |
| Dispatch.KeywordIgnoresPadding | src/index.ts:76-86 | Padding around the text and after the slash does not change acceptance or the keyword |
| Dispatch.OwnerCommandAnswered | src/index.ts:50-107 | A padded slash command in an owner-number private chat from the owner's account is answered with the reply for the lower-cased word |
| Dispatch.KeywordCaseInsensitive | src/index.ts:86 | Command texts equal up to letter case have the same keyword |
| Dispatch.PrefixCaseInsensitive | src/index.ts:79-82 | Strings equal up to letter case agree on every letter-free prefix |
| Dispatch.MarkersAreCaseFree | src/index.ts:79-82 | The marker and the slash contain no letters |
| Dispatch.TrimCaseInsensitive | src/index.ts:76-86 | Strings equal up to letter case stay so after trimming |
| Dispatch.ScreenTextCaseInsensitive | src/index.ts:76-86 | Letter case changes neither the text guards' verdict nor the keyword |
| Dispatch.CaseInsensitive | src/index.ts:70-107 | Two messages in one chat whose texts, from whichever field, are equal up to letter case get the same reply, or both none |
| Dispatch.CommandTable | src/index.ts:88-105 | `ping` → pong, `hi` → greeting, `time` → marker + timestamp, anything else → "Command received: " + keyword |
| Dispatch.UpperCasePing | src/index.ts:86-93 | `/PING` in the owner's chat is answered with pong |
| Dispatch.SpacedPing | src/index.ts:86-93 | `/ ping` in the owner's chat is answered with pong |
| Dispatch.PaddedPing | src/index.ts:76-93 | `/ping ` in the owner's chat is answered with pong |
| Dispatch.HiGreets | src/index.ts:95-97 | `/hi` in the owner's chat is answered with the greeting |
| Dispatch.UpperCaseTime | src/index.ts:99-101 | `/TIME` in the owner's chat is answered with the marker and the timestamp |
| Dispatch.UnknownCommandEchoed | src/index.ts:103-104 | Any other word is echoed, lower-cased, after "Command received: " |
| Dispatch.OwnerTestIsPrefix | src/index.ts:68 | A different, longer number starting with the owner's digits is answered too |
| Dispatch.TrimmedReplyStartsWithMarker | src/index.ts:79 | A reply still starts with the marker after trimming |
| Dispatch.LoopPrevention | src/index.ts:78-79 | A reply the handler sent, received back as a message, is never answered |
| Dispatch.OnlyFirstMessageCounts | src/index.ts:50 | Messages after the first in a batch do not affect the outcome |
| Connection.StatusCode | src/index.ts:33 | The optional chain yields a code exactly when every link is present, and then that code |
| Connection.ShouldReconnect | src/index.ts:32-34 | Reconnection is refused only when a status code is present |
| Connection.React | src/index.ts:30-45 | Restart or stay closed exactly on `close`; ready exactly on `open` |
| Connection.RestartIff | src/index.ts:31-40 | A restart happens exactly on a `close` whose status code is not `loggedOut` (missing included) |
| Connection.MissingStatusRestarts | src/index.ts:32-39 | A close without any status code restarts |
| Connection.LoggedOutStaysClosed | src/index.ts:32-40 | A close with status `loggedOut` does not restart |
| Connection.OnlyCloseRestarts | src/index.ts:31-45 | Updates other than `close` never restart |
| Connection.Restarts | src/index.ts:38-39 | A run of updates restarts the bot at most once per update |
| Connection.RestartsAppend | src/index.ts:38-39 | Restart counts add up over consecutive runs |
| Connection.EveryCloseRestarts | src/index.ts:38-39 | With no guard, n non-logout closes cause n restarts |
| Connection.LogoutCostsARestart | src/index.ts:32-40 | A run containing a logout close restarts fewer times than it has updates |

## Left out

- Client setup (src/index.ts:16-28): loading credentials, fetching the protocol version, creating the socket and saving credentials. These are calls into the Baileys library, which is not part of this model.
- Sending: `sock.sendMessage` (src/index.ts:107) is not performed. `HandleMessage` returns the `Send` value it would pass; send failures and the `try`/`catch` with its error log (src/index.ts:109-111) are not modelled.
- The `time` reply's content: `new Date().toLocaleString()` reads the clock and the locale, so it is the parameter `now`.
- The restart itself: `startBot()` (src/index.ts:39, 115) is asynchronous and builds a new socket with new handlers. The model stops at the decision (`Reaction.Restart`) and counts decisions over a run of updates; it does not model the sockets that are created or left behind.
- Logging (`console.log`, the pino logger) is left out; it has no effect on any decision.
- `Text.Lower`: only `A`-`Z` are mapped. `toLowerCase()` also maps non-ASCII letters by the Unicode case tables, which are not modelled. This matters only for keywords with non-ASCII letters, which fall through to the echo reply either way, but the echoed keyword differs: `/Ärger` is echoed as `ärger` by JavaScript and as `Ärger` by the model.
- Strings are sequences of Unicode scalar values, not UTF-16 code units. Lengths and indices therefore differ from JavaScript's for characters outside the BMP (the 🤖 marker is one element here and two code units in JavaScript). No decision depends on this. `slice(1)` only drops a `/`, and `startsWith`/`endsWith` are only called with the 🤖 marker, `/`, the owner's number, `@g.us` and `@lid`. The marker is one whole character in both representations, and the other arguments are ASCII, so each test has the same outcome either way.
- Only the text fields the handler reads are modelled (`conversation`, `extendedTextMessage.text`). Other message kinds appear as a payload with neither field, and so get no reply.
- The status code is an integer or absent. Values of other JavaScript types in that position are not modelled.
