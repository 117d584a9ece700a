# A verified model of the FRB WhatsApp bot's message path

FRBPanel/BaseBotFreBandung is a small WhatsApp bot built on the Baileys web
client. This project models the two files that decide what the bot does. It
covers the path from an incoming `messages.upsert` event to the one reply the
bot sends:

- `index.js` wires the socket. Modelled here:
  - the upsert listener's filter, including its in-place unwrap of a
    disappearing-message payload;
  - the reconnect and startup-retry rule around `startBot`;
  - `patchMessageBeforeSending`;
  - the check of the typed phone number for pairing.
- `case.js` is the exported message handler. Modelled here:
  - it extracts the body and parses the prefix, the command and the arguments;
  - it picks the sender;
  - it formats the console line, with the number masked and the body cut;
  - it chooses the reply.

Modules:

- `Wrappers` holds `Option`, used for JavaScript's missing fields.
- `JsString` holds the ECMAScript string built-ins the bot calls. These are
  `startsWith`, `endsWith`, `trim` (every ECMAScript white space and line
  terminator), `split(' ')`, `split(/ +/)` and `toLowerCase`. They follow the
  ECMAScript semantics, except as listed under "## Left out".
- `Wire` holds the fields of a Baileys message that the bot reads.
- `Handler` models `case.js`. Sending and logging come back as values: an
  `Outcome` holds an optional console line and an optional `Reply`.
- `LogFormat` holds the masking and preview helpers of the console line.
- `Scenarios` holds worked examples of the handler under the default prefix
  ".". It also holds the general facts about space-free words that those
  examples rest on.
- `Inbound` models the `messages.upsert` listener:
  - a total function `Upsert` over message values;
  - a class `WebMessage` whose `message` field the method `OnUpsert` rewrites
    in place, just as the listener does.
- `Session` models the connection lifecycle:
  - a transition function `Step` over snapshots;
  - a class `Bot` whose event methods are each proved to perform that
    transition. Every `setTimeout(startBot, …)` becomes a pending delay in a
    list. A timer firing is an event.
- `Outgoing` models `patchMessageBeforeSending` over a JSON-like value type.
- `Pairing` models the phone-number check of the pairing prompt.

Inputs from outside the model:

- The content type (Baileys' `getContentType`) is a field of the payload.
- The user part of the sender (`jidDecode(sender).user`) is a parameter. It is
  not tied to the sender: the model allows a user part even when the sender is
  missing, although `jidDecode` of a missing sender yields none.
- The formatted Asia/Jakarta clock is a parameter.
- The socket's own user id is an `Option` inside `Handler.Config`.

Where the code differs from its informal description, the model follows the
code:

- The command is split from its arguments on a single `' '`, not on any white
  space. A tab or newline after the command word stays part of it.
- The arguments are split from the whole trimmed body, prefix token included.
  So `". ping"` has the argument `ping` as well as the command `ping`.

## Model

| member | source | states |
|---|---|---|
| `JsString.Trim` | case.js:49-50 | `trim()` returns a contiguous slice of the input. Everything cut from either side is white space, and the result neither starts nor ends with white space. |
| `JsString.SplitOn` | case.js:49 | `split(' ')` gives at least one piece and no piece holds the separator. Joining the pieces with the separator gives the input back. |
| `JsString.SplitOnFirst` | case.js:49 | The first piece of `split(' ')` is a prefix of the input without a separator. It is followed by the end of the input or by a separator. |
| `JsString.SplitOnFirstUnique` | case.js:49 | Any prefix with those properties is the first piece, so the first piece is fully determined. |
| `JsString.SplitSpaceRuns` | case.js:50 | `split(/ +/)` always gives at least one piece. |
| `JsString.SplitSpaceRunsContents` | case.js:50 | No piece of `split(/ +/)` holds a space. The pieces, concatenated, are exactly the input's non-space characters, in order. |
| `JsString.SplitSpaceRunsNonEmpty` | case.js:50 | Every piece of `split(/ +/)` between the first and the last is non-empty. |
| `JsString.SplitSpaceRunsFirst` | case.js:50 | The first piece is non-empty when the input starts with a non-space character. |
| `JsString.SplitSpaceRunsLast` | case.js:50 | The last piece is non-empty when the input ends with a non-space character. |
| `JsString.SplitSpaceRunsJoin` | case.js:50 | Joining the pieces of `split(/ +/)` with single spaces gives the input with every run of spaces collapsed to one. |
| `JsString.ToLower` | case.js:49 | `toLowerCase()` keeps the length and lower-cases each character independently. |
| `JsString.ToLowerFacts` | case.js:49 | Lower-casing is idempotent. It neither adds nor removes a space. No upper-case ASCII letter survives it. |
| `Handler.Body` | case.js:39-44 | A non-empty body is exactly the text of the one field the content type designates. That field wins whenever it is present and non-empty. Otherwise the body is "", including when there is no payload or the type carries no text. |
| `Handler.Prefix` | case.js:47 | The prefix is `prefa` whenever it is defined, even as "". Otherwise it is a non-empty `global.prefix`, otherwise ".". Without `prefa` it is never empty. |
| `Handler.IsCmd` | case.js:48 | A body is a command iff it repeats the prefix character for character at its start, with no case folding. |
| `Handler.Command` | case.js:49 | A non-command gives "". The command never holds a space and is lower-case. |
| `Handler.CommandIsFirstWord` | case.js:49 | For a command body, the command is the lower-cased part of the trimmed rest before its first `' '`, or all of that rest. A body equal to the prefix gives "". |
| `Handler.CommandIgnoresCase` | case.js:48-49 | For a command body and a lower-case prefix, lower-casing the body does not change the command. |
| `Handler.Args` | case.js:50 | Each argument is a non-empty token with no space. The arguments hold exactly the non-space characters after the first token. A body that is blank after trimming has no arguments. |
| `Handler.ArgsAreLaterTokens` | case.js:50 | With space runs collapsed, the trimmed body is one space-free token. When there are arguments, that token is followed by a space and the arguments joined by single spaces. This fixes every argument's boundaries. |
| `Handler.IsGroup` | case.js:52 | A chat is a group iff its id ends in the five characters `@g.us`. |
| `Handler.Sender` | case.js:52-53 | In a group chat (id ends in `@g.us`) the sender is the message's `participant`, possibly missing. Otherwise it is the chat id, which is then no group id. |
| `Handler.SenderNumber` | case.js:54-55 | The sender number is the decoded user part when present. Otherwise it is the sender rendered as text, "undefined" when missing. |
| `Handler.SenderName` | case.js:56 | The sender name is the push name when present. Otherwise it is exactly the unmasked sender number. |
| `Handler.Handle` | case.js:26-112 | A stub id is skipped. A socket without a user makes the handler fail into its own catch, and nothing is logged or sent. Otherwise a line is logged iff there is a payload. The line shows: whether the chat is a group; the command, or "-" for a non-command; the masked sender number; the sender name; and the body preview. Exactly one reply is sent iff the body starts with the prefix. It goes to the chat, quotes the message, and its text is the switch's reply to the parsed command. |
| `Handler.ReplyText` | case.js:93-106 | "ping" gets "Pong!" and "time" gets "Current time: " and the clock. Every other command, "" included, gets exactly "Unknown command: <command>\nUse <prefix>help for available commands". |
| `LogFormat.MaskNumber` | case.js:84 | A string of nine or more ASCII digits becomes its first four digits, five asterisks and its last four digits, 13 characters in all. Any other string is unchanged. |
| `LogFormat.MaskIdempotent` | case.js:84 | Masking a masked number changes nothing. |
| `LogFormat.Preview` | case.js:86 | A body of at most 60 characters is shown whole. A longer one shows as its first 60 characters and "...". The preview never exceeds 63 characters. |
| `LogFormat.PreviewEllipsisIffCut` | case.js:86 | The preview ends in the ellipsis at position 60 iff the body was longer than 60. The shown text is always a prefix of the body. |
| `Scenarios.CommandOfFirstWord` | case.js:49 | For the prefix, a word and nothing or a space-led tail, the command is the word lower-cased. |
| `Scenarios.CommandAfterSpace` | case.js:49 | For the prefix, a space and a word, the trim skips the space and the command is the word lower-cased. |
| `Scenarios.ArgsOfOneWord` | case.js:50 | A single word has no arguments. |
| `Scenarios.ArgsOfTwoWords` | case.js:50 | Two space-separated words have the second as their only argument. |
| `Scenarios.ArgsOfThreeWords` | case.js:50 | Three space-separated words have the last two as arguments. |
| `Scenarios.PingScenario` | case.js:49-95 | ".ping" has command "ping", no arguments and the reply "Pong!". |
| `Scenarios.PingHandledScenario` | case.js:39-95 | A conversation message ".ping" under the default prefix, on a socket with a user, is handled with exactly the reply "Pong!" to its chat, quoting it. |
| `Scenarios.UpperCasePingScenario` | case.js:49 | ".PING" has command "ping". |
| `Scenarios.TimeCommandScenario` | case.js:49 | ".time extra args" has command "time". |
| `Scenarios.TimeArgsScenario` | case.js:50 | ".time extra args" has the arguments "extra" and "args". |
| `Scenarios.SpacedPrefixScenario` | case.js:49-50 | For a word prefix, a space and a word, as in ". ping", the word is the command and also the only argument. |
| `Scenarios.UnknownCommandScenario` | case.js:49 | ".foo" has command "foo". |
| `Scenarios.EmptyBodyScenario` | case.js:48-50 | An empty body has no arguments and is no command under a non-empty prefix. Its command is "". |
| `Wire.IsStubId` | index.js:155 | An id is a stub iff it starts with "BAE5" and is exactly 16 characters long. The handler repeats this guard at case.js:29-31. |
| `Inbound.Unwrap` | index.js:148-150 | A payload with an `ephemeralMessage` wrapper is replaced by the wrapper's own `message`, possibly missing. Any other payload is kept. |
| `Inbound.UnwrapOneLevel` | index.js:148-150 | Exactly one level comes off: a doubly wrapped payload still has its inner wrapper. |
| `Inbound.Filter` | index.js:142-155 | The first message is forwarded iff all of these hold: the event is `notify`, the batch is non-empty, the message has a payload, it is not from the bot itself, it is not a status broadcast, and it has no stub id. The forwarded message is the unwrapped one. A non-`notify` event is always ignored. |
| `Inbound.OnlyFirstMessage` | index.js:144 | The decision depends on the first message of the batch only. |
| `Inbound.Upsert` | index.js:140-162 | The handler runs iff the filter forwards. Its outcome is the handler's result on the forwarded, unwrapped message, and it never meets a stub id. A dropped event carries the filter's reason. Every outcome, an exception caught inside the handler included, is a value: nothing escapes. |
| `Inbound.ReplyOnlyForAdmittedCommands` | index.js:153-158 | A reply is sent iff the message is forwarded, the socket has a user and the body starts with the prefix. Self messages, status broadcasts and stub ids are always dropped. |
| `Inbound.OnUpsert` | index.js:140-162 | The listener computes `Upsert` on the batch as it was. It changes nothing but the first message's payload. For a `notify` event with a payload, that payload is unwrapped even when the message is then dropped. Otherwise it stays as it was. |
| `Session.Reaction` | index.js:125-136 | A close that is not a logout schedules `startBot` after 5000 ms. This includes a close without any status code, which counts as 500. A logout close, an open and any other update schedule nothing. |
| `Session.RemoveAt` | index.js:130 | Removing a fired timer leaves every other pending delay, as a multiset. |
| `Session.Step` | index.js:122-137 | A startup error appends the 10000 ms retry. A recoverable close appends the 5000 ms restart. Every other update keeps the pending delays, and an open makes the session online. A fired pending timer removes exactly that delay and runs `startBot` again, so the session is starting. A timer that is not pending changes nothing. |
| `Session.LoggedOutIsTerminal` | index.js:126-133 | A logout close ends the session and schedules nothing. |
| `Session.RunKeepsKnownDelays` | index.js:130 | Over any sequence of events, every pending timer waits either 5000 ms or 10000 ms. |
| `Session.UpdatesScheduleOneRestartPerClose` | index.js:125-133 | Over any sequence of connection updates, each non-logout close adds exactly one 5000 ms restart and nothing else adds any. There is no cap and no back-off. |
| `Session.LogoutKeepsEarlierRestart` | index.js:125-133 | A logout does not cancel a restart scheduled by an earlier close. That timer stays pending, and when it fires the session leaves `ClosedTerminal` and starts again. |
| `Session.Bot.constructor` | index.js:178 | The process starts in `Starting` with nothing pending. |
| `Session.Bot.OnConnectionUpdate` | index.js:122-137 | The `connection.update` listener performs exactly the `Step` transition for the update. |
| `Session.Bot.OnStartupError` | index.js:171-174 | The startup `catch` performs the `Step` transition. It appends a 10000 ms retry. |
| `Session.Bot.OnTimer` | index.js:130 | A pending timer firing performs the `Step` transition and runs `startBot` again. A timer that is not pending does nothing. |
| `Outgoing.RequiresPatch` | index.js:54-58 | A message needs the patch iff one of `buttonsMessage`, `templateMessage` and `listMessage` is present with a truthy value. |
| `Outgoing.Inner` | index.js:61-69 | The inner message has the original's fields and `messageContextInfo`. The original's own values win on a clash, because the spread comes last. |
| `Outgoing.Patch` | index.js:53-74 | A message with a truthy buttons, template or list field becomes `{viewOnceMessage: {message: …}}` around the inner message. Any other message is returned unchanged. |
| `Outgoing.PatchKeepsMessage` | index.js:60-73 | What the receiver unwraps holds every field of the original with its own value. At most the context info is added. This holds for every message that needs the patch, and for every other message without a `viewOnceMessage` field of its own. |
| `Outgoing.PatchIdempotent` | index.js:53-74 | Patching a patched message changes nothing. |
| `Pairing.StripNonDigits` | index.js:104 | Stripping leaves only digits and never lengthens the input. |
| `Pairing.StripConcat` | index.js:104 | Stripping works piece by piece, so the digits keep their order. |
| `Pairing.StripKeepsEveryDigit` | index.js:104 | Every digit occurs after stripping as often as before, so no digit is removed. |
| `Pairing.StripDigitsOnly` | index.js:104 | A number typed as bare digits is kept exactly. |
| `Pairing.CheckNumber` | index.js:104-111 | The process exits with code 1 iff the stripped number does not start with "62". Otherwise the pairing code is requested for the stripped number. |
| `Pairing.PairingPrompt` | index.js:101-111 | The prompt runs iff pairing codes are enabled and the credentials are not registered yet. |

## Left out

- Baileys socket construction and options, authentication state, `saveCreds`,
  `fetchLatestBaileysVersion`, the in-memory store and `getMessage`: these are
  calls into a foreign library and the network.
- The request for a pairing code: this is a network call. `Pairing` models
  only which number it is requested for.
- `getContentType`, `jidDecode` and `areJidsSameUser` are library helpers.
  Their results are inputs:
  - the content type is a field of `Wire.Payload`;
  - the decoded user part is a parameter;
  - the `isMe`/`isBot` comparisons are unused, so only their throwing when
    the socket has no `user` is modelled, as `Handler.Outcome.Failed`.
- `senderJid.id`: the decoded JID has no such field, so it is taken as always
  missing.
- Real time: `moment` formatting is an opaque clock string passed in.
  `setTimeout` records a pending delay, and the order in which timers fire is
  chosen by the caller.
- Console output, chalk colours and the error logs: only the logged fields are
  returned, as `Handler.LogLine`.
- `fs.watchFile` hot reloading, the readline prompt, SIGINT handling and
  `process.exit`: these are process I/O. Only the exit code of the phone check
  is kept.
- The promises of `startBot` and `sendMessage`: the model has no asynchrony.
  Each listener runs to completion.
- `lastDisconnect` is assumed present on a close, as the listener's
  unconditional assignment to it requires.
- `JsString.ToLower`: lower-cases ASCII letters only, not the full Unicode
  case mapping of `toLowerCase`.
- `JsString.Trim`: lengths and positions count Unicode scalar values, not
  UTF-16 code units. `Preview` differs from JavaScript on text outside the
  Basic Multilingual Plane.
- `Outgoing.JsValue`: numbers are integers. Values other than JSON-like ones,
  such as buffers and functions, are not modelled.
- `Wire.MsgKey`: the key, its chat id and its id are assumed to be present
  strings. A missing or non-string id makes `msg.key.id.startsWith` throw into
  the listener's own `catch` (index.js:155, 159-161). A missing chat id makes
  `from.endsWith` throw into the handler's `catch` (case.js:52, 108-112).
  Neither of those two catches is modelled. `Inbound.Upsert`'s "nothing
  escapes" covers only the handler's `frb.user` failure.
- `Handler.Reply`: the quoted message is represented by its key, while the
  source passes the whole message object as `quoted`.
