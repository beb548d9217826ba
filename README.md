# Corrade group / Discord bridge: relay logic

A model of the relay logic of the Corrade group to Discord bridge (`main.js`).
The bridge relays text between a Second Life group, reached through Corrade's
MQTT broker, and one Discord channel. It handles four events:

- the MQTT `message` handler forwards group messages to Discord;
- the Discord `message` handler publishes a Corrade `tell` command for chat messages;
- the Discord `ready` handler resolves the configured channel to its id;
- the process-wide channel id starts as the sentinel `-1` and only `ready` writes it.

The model has six modules:

- `Text` holds the character classes of JavaScript regular expressions and ASCII
  upper-casing.
- `Echo` states the echo-loop pattern `/^.+?#[0-9]+? \[Discord\]:.+?$/gm` as predicates
  on strings: some line of the message has the form `a#d [Discord]:b`. Here `a` and `b`
  are non-empty, `d` is a non-empty run of digits, and no part holds a line terminator.
- `Relay` gives each handler as a function from the event and the current channel cell
  to a decision value. The inbound handler returns `ErrorUnresolved`, `Drop` or
  `Send(channelId, text)`. The outbound handler returns an optional `Publish(topic, fields)`.
  The resolver is a first-match search over the channel list.
- `Coordinator.Bridge` is the class holding the channel cell. `None` stands for the `-1`
  sentinel: a number, so a strictly-equal comparison never matches it to a string id.
  The three handlers are methods of this class. Only `OnReady` has a `modifies` clause.
  The attachment `forEach` is a loop in `BuildContent`.
- `Scenarios` holds concrete runs.
- `Wrappers` holds `Option`.

The main cross-handler property is `Relay.NoEchoLoop`. Whatever the bridge publishes for
a chat message carries the echo pattern on its first line, whatever the content. So when
the group broadcasts it back, the inbound handler does not send it to Discord again.
This holds as long as the username is a non-empty single line and the discriminator is a
non-empty run of digits.

The code's behaviour, which the model follows, in places one might expect otherwise:

- The inbound handler checks for the unresolved channel first, before parsing and before
  every other filter (main.js:69-72).
- The `ready` handler has no "already resolved" guard. A later `ready` that finds a
  matching channel overwrites the id; one that finds none keeps it (main.js:150-156).
- Empty text with attachments yields a reply with two spaces after `[Discord]:`.
  An example is `Bob#0001 [Discord]:  http://x/img.png` (main.js:104-106, 127).
- Absent `firstname` or `lastname` fields are rendered as `undefined`, as a template
  literal does (main.js:96).
- A group member can keep a message from being relayed to Discord by typing a line that
  has the echo shape. This follows from the echo filter itself (main.js:89-90), and the
  model keeps that behaviour. The only nearby remark in the code is an unexplained
  "security" TODO (main.js:124-126), next to a comment about passing prefixed messages
  through without the username, a pass-through the code does not implement.

## Model

| member | source | states |
|---|---|---|
| `Text.Upper` | main.js:83-84 | `toUpperCase` keeps the length and upper-cases each character on its own (ASCII letters only) |
| `Text.UpperEqualIff` | main.js:83-84 | comparing upper-cased group names accepts exactly the names that differ from the configured one only in letter case (both directions) |
| `Echo.MatchesEcho` | main.js:19 | the regex with the `g` and `m` flags, as used by `.match` at main.js:89: some substring from a line start to a line end is an echo line; a match needs a `#` and at least 15 characters |
| `Echo.EchoLineOfParts` | main.js:19 | every line `a + "#" + d + " [Discord]:" + b` with `a`, `b` non-empty single-line and `d` non-empty digits is matched by the pattern |
| `Echo.PartsOfEchoLine` | main.js:19 | conversely every matched line splits into such parts |
| `Echo.SingleLineMatch` | main.js:19 | on a message without line terminators the anchors force the match to cover the whole message |
| `Echo.LineMatches` | main.js:19 | with the multiline flag an echo-shaped line anywhere between line terminators makes the whole message match |
| `Echo.NoHashNoMatch` | main.js:19 | a message with no `#` never matches, so ordinary group chat is not filtered |
| `Relay.Topic` | main.js:138 | the topic subscribed to (main.js:53) and published on: the group name, then `/`, then the password, ending in `/group` |
| `Relay.TopicDeterminesCredentials` | main.js:138 | the topic `group/password/group` determines the group and password (for group names without `/`), so different credentials never share a topic |
| `Relay.InboundDefined` | main.js:79-89 | the inputs on which the MQTT handler does not throw: it never throws while the channel is unresolved or the type is not `group`, nor when `group` and `message` are present |
| `Relay.SecondLifeLine` | main.js:96 | the text sent to Discord ends in `" [SL]: " + message` |
| `Relay.Inbound` | main.js:67-97 | the error is reported exactly when the channel is unresolved; a notification whose type is absent or not `group` is dropped; an echo-shaped message is never sent; a send goes to the stored channel |
| `Relay.InboundSendIff` | main.js:79-96 | a notification is sent iff the channel is resolved, the type is `group`, the group equals the configured one up to letter case, and the message has no echo line; the send then goes to the stored id with text `first + " " + last + " [SL]: " + message` |
| `Relay.Appended` | main.js:106 | each attachment adds at least one character (its space) to the content |
| `Relay.MessageContent` | main.js:104-106 | the value the `forEach` leaves: it starts with the text content and is at least one character longer per attachment |
| `Relay.BuildContent` | main.js:104-106 | the attachment loop leaves the content followed by `" " + url` for each attachment in order |
| `Relay.ContentEmptyIff` | main.js:104-110 | the built content is empty iff the text is empty and there are no attachments, so an attachment-only message is not dropped |
| `Relay.AppendedConcat` | main.js:106 | the text appended for a split attachment list is the two parts' texts in order |
| `Relay.AppendedFront` | main.js:106 | the first attachment's URL comes first, after one space |
| `Relay.TellCommand` | main.js:130-136 | the `tell` command has five fields with distinct keys, the last being `message` with the reply |
| `Relay.TellCommandFields` | main.js:130-136 | the command fields read back as `command=tell`, the configured group and password, `entity=group` and the reply |
| `Relay.Outbound` | main.js:99-139 | a publication always goes to the group topic and only for a message from the stored channel |
| `Relay.OutboundPublishIff` | main.js:101-138 | a message is published iff it is not from a bot, has text or an attachment, comes from the stored channel id and the configured guild, and is a text channel message; the command is then the `tell` of `username#discriminator [Discord]: content` |
| `Relay.Reply` | main.js:127 | the reply starts with the username and `#`, and ends in `" [Discord]: " + content` |
| `Relay.ReplyMatchesEcho` | main.js:127 | every reply of a non-empty single-line username and a digit discriminator matches the echo pattern, whatever the content |
| `Relay.NoEchoLoop` | main.js:87-90 | the message the bridge published, when it comes back from the group, is never sent to Discord again |
| `Relay.FirstTarget` | main.js:145-148 | the search returns the first channel in collection order with the configured name in the configured guild, or nothing when none matches |
| `Relay.Resolve` | main.js:145-156 | the cell becomes the first matching channel's id, and is left unchanged when no channel matches |
| `Relay.ResolveIdempotent` | main.js:142-157 | a second `ready` over the same channels leaves the cell as the first left it |
| `Coordinator.Bridge.constructor` | main.js:15 | the channel cell starts unresolved |
| `Coordinator.Bridge.OnNotification` | main.js:67-97 | the MQTT handler decides as `Inbound` and does not write the channel cell |
| `Coordinator.Bridge.OnChatMessage` | main.js:99-139 | the Discord handler, which builds the content with the loop, decides as `Outbound` and does not write the channel cell |
| `Coordinator.Bridge.OnReady` | main.js:142-157 | the `ready` handler reports an error iff no channel matches, and sets the cell as `Resolve` says, without a guard for an already resolved cell |
| `Scenarios.GroupMessageRelayed` | main.js:83-96 | `Jane`/`Doe`/`hello` for group `MyGroup`, `MYGROUP` or `mygroup` is sent as `Jane Doe [SL]: hello` |
| `Scenarios.UnresolvedReportsError` | main.js:69-72 | the same notification before resolution only reports the error |
| `Scenarios.AttachmentOnlyContent` | main.js:104-106 | empty text with one attachment builds the content ` http://x/img.png` |
| `Scenarios.AttachmentOnlyReply` | main.js:127 | that content gives the reply `Bob#0001 [Discord]:  http://x/img.png`, with two spaces |
| `Scenarios.AttachmentOnlyMessage` | main.js:104-138 | empty text with one attachment is published as `Bob#0001 [Discord]:  http://x/img.png` |
| `Scenarios.BotMessageDropped` | main.js:101-102 | a bot's message is not published |
| `Scenarios.AliceEchoDropped` | main.js:89-90 | `Alice#1234 [Discord]: hi` arriving from the group is not sent to Discord |
| `Scenarios.ResolveThenRelay` | main.js:142-157 | on one bridge, a notification before `ready` yields the error; after `ready` resolves channel `42` the same notification is sent as `Jane Doe [SL]: hello` |
| `Scenarios.RelayedLineComesBack` | main.js:87-138 | on a resolved bridge, a human's chat message is published on the group topic, and when the group echoes it back it is dropped |
| `Scenarios.LaterReadyOverwrites` | main.js:142-157 | a second `ready` finding channel `99` overwrites the resolved `42`; a third finding no match leaves `99` |

## Left out

- MQTT transport: connect, reconnect, subscribe, error events and the delivery of `publish` (main.js:44-65). Publishing is modelled only as the returned `Publish` value.
- Discord client plumbing: login, the `error` and `reconnecting` handlers, and delivery through `channels.get(...).send` (main.js:10, 159-174). Sending is modelled only as the `Send` outcome.
- Configuration loading and logging (main.js:22-41). The configuration is an immutable `Config`. A logged error is the `ErrorUnresolved` outcome, or `notFound` for `ready`. The broker URI and the bot key are not modelled.
- `qs.parse` and `qs.stringify` (main.js:76, 130-136). The notification is a record of optional string fields. The command is an ordered list of key/value pairs without percent-encoding. Repeated keys, which `qs` turns into arrays, are not modelled.
- Inbound: a `group` or `message` field that is absent when the handler reaches it makes the source throw. The requires `InboundDefined` excludes exactly those inputs instead of modelling the exception.
- Text.UpperEqualIff: `toUpperCase` is modelled for ASCII letters only. JavaScript also upper-cases non-ASCII letters, some into several characters. Case-insensitive matching beyond ASCII is therefore not captured.
- The `attachments.length !== 0` test (main.js:105) is not modelled. Attachments are a plain sequence, and looping over an empty one adds nothing, so the test does not change the result.
- Characters are Unicode scalar values, not UTF-16 code units.
- Interleaving of events from the two clients is not modelled. Each handler is one atomic call.
