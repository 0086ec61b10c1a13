# KickProxy core, modelled in Dafny

KickProxy bridges the Kick live-chat feed (a Pusher websocket) to a small
IRC-like line server. Two components hold all of its state, and this project
models both and proves properties about them:

- **The upstream subscription tracker** (`KickServer`, src/kick/KickServer.ts).
  It maps room ids to `CONNECTING | CONNECTED`. It sends one `pusher:subscribe`
  command per untracked room and arms a 5-second timer that deletes the entry.
  A `channel_connect` listener sets the entry `CONNECTED` when the feed
  confirms the subscription. Confirmations are recognised by decoding the
  frame, checking its `event`, and matching its `channel` against
  `/^chatrooms\.(\d+)\.v2$/m`.
  - Files: `kick_channel.dfy` (module `KickChannel`, pure: digits, channel
    strings, frames, the command, the id check) and `kick_server.dfy` (module
    `KickServer`, class `KickServer`).
- **The local line-protocol server** (`IrcServer`, src/irc/IrcServer.ts).
  Each client keeps the set of channels it joined. The server keeps the
  reverse index from channel name to the set of its clients. A data chunk
  starting `JOIN #` or `PART #` names a channel and gets two reply lines.
  - Files: `irc_protocol.dfy` (module `IrcProtocol`, pure: chunk parsing and
    replies) and `irc_server.dfy` (module `IrcServer`: the index as a value,
    and classes `Client` and `IrcServer`).
- `wrappers.dfy` holds `Option` and `Result`.

Timers, socket callbacks and event-emitter dispatch become explicit method
calls, handled one at a time:
- `Timeout(id)` is a subscribe timer firing.
- `OnMessage(frame)` is the websocket message handler.
- `Confirm(id)` is a `channel_connect` event reaching the listeners.
- `HandleConnection()` and `HandleData(c, chunk)` are a TCP connection and
  one `data` callback.
- Socket writes are appended to `Client.written`; upstream sends are appended
  to `KickServer.sent`.
- The channel lookup of `connectToChannel` is an oracle: the method receives
  the `id` it answered, if any.

Invariants the classes keep:
- `KickServer.Valid`: every tracked room had a listener registered for it.
  A room is `CONNECTING` exactly while one subscribe timer for it is armed.
  Listeners are never removed.
- `IrcServer.Valid`: no index entry is empty, and every member of an entry is
  a connected client. `ch in c.channels` holds exactly when `c` is in the
  index entry for `ch`.

What the code does not do, and the model therefore does not promise:
- The code never removes a confirmation listener, and the listener does not
  check the entry, so a confirmation after the timeout sets the room
  `CONNECTED` again (`LateConfirmation`).
- The code has no per-client channel limit, no case normalisation, no
  `CHANNELS` command, no error reply for other commands, no unsubscribe, no
  cleanup on disconnect (the `end` handler does nothing), no delivery of
  upstream chat to clients, and no name-to-id cache. Nothing passes data
  between the two servers: src/index.ts only starts the IRC server when the
  upstream socket opens. The model promises none of these.

## Model

| member | source | states |
|---|---|---|
| `KickChannel.NatToString` | src/kick/KickServer.ts:71 | the text of a room id in `${channelId}` is non-empty decimal digits, has no leading zero, and has the id as its base-10 value |
| `KickChannel.IntToString` | src/kick/KickServer.ts:71 | a non-negative id prints as its digits; a negative id prints as `-` followed by the digits of its absolute value |
| `KickChannel.CanonicalDigitsRoundTrip` | src/kick/KickServer.ts:49 | `parseInt` then printing gives back any digit string with no leading zero |
| `KickChannel.DigitsValue` | src/kick/KickServer.ts:49 | `parseInt` of a digit string, most significant digit first; the value is zero exactly when every digit is `0` |
| `KickChannel.MatchLine` | src/kick/KickServer.ts:44 | the pattern against one whole line: a match is a terminator-free line `chatrooms.` + digits + `.v2`, and yields the digits' value |
| `KickChannel.ParseRoomId` | src/kick/KickServer.ts:44-49 | the room id of the first line that matches the pattern, or None. On a single line it is that line's match; any id it yields is the match of some whole line of the channel string |
| `KickChannel.FormatChannel` | src/kick/KickServer.ts:71 | the channel name is `chatrooms.`, then the id's text, then `.v2` |
| `KickChannel.LineEnd` | src/kick/KickServer.ts:44 | finds the first ECMAScript line terminator (the boundaries the `m` flag anchors at); everything before it is one line |
| `KickChannel.SingleLineParse` | src/kick/KickServer.ts:44-47 | on a string with no line terminator, the regex matches the whole string or nothing |
| `KickChannel.FirstLineMatches` | src/kick/KickServer.ts:44-49 | with the `m` flag, a first line that matches decides the room id, whatever follows |
| `KickChannel.FirstLineSkipped` | src/kick/KickServer.ts:44-49 | with the `m` flag, a first line that does not match is skipped and the search goes on after its terminator |
| `KickChannel.ParseChannelName` | src/kick/KickServer.ts:44-49 | `chatrooms.<digits>.v2` yields the base-10 value of the digits |
| `KickChannel.ParsedLineShape` | src/kick/KickServer.ts:44-49 | conversely, a single line that yields an id is `chatrooms.<digits>.v2`, and the id is the digits' value |
| `KickChannel.FormatParseRoundTrip` | src/kick/KickServer.ts:44-49 | the channel that a subscribe for room n names is recognised by the confirmation regex as room n, for every natural n |
| `KickChannel.NegativeIdNeverParses` | src/kick/KickServer.ts:71 | the channel formatted for a negative id never matches the regex |
| `KickChannel.ParseFormatRoundTrip` | src/kick/KickServer.ts:44-49 | a single line that yields n equals the channel formatted for n exactly when its digits have no leading zero |
| `KickChannel.LeadingZeroCounterexample` | src/kick/KickServer.ts:44-49 | `chatrooms.07.v2` yields 7, and 7 formats as `chatrooms.7.v2`, so the reverse round trip fails |
| `KickChannel.DecodeFrame` | src/kick/KickServer.ts:31-51 | frames that are not JSON, have another `event`, or have a falsy `channel` are ignored. A confirmation happens exactly when the event is `pusher_internal:subscription_succeeded` and the channel is a string the regex matches, and it names the parsed id. It throws exactly for `null`, or for a truthy non-string channel on a subscription-succeeded event |
| `KickChannel.SubscribeCommand` | src/kick/KickServer.ts:67-75 | the command has event `pusher:subscribe`, `auth` null and channel exactly `chatrooms.<id>.v2`, which a confirmation reads back as the same room (never, for a negative id) |
| `KickChannel.CheckId` | src/kick/KickServer.ts:99-105 | succeeds exactly for a present, non-zero id and returns it; otherwise fails with `Missing 'id' field in response` |
| `KickServer.KickServer.constructor` | src/kick/KickServer.ts:16-22 | starts with no socket, no tracked rooms, no listeners, no timers and nothing sent |
| `KickServer.KickServer.ConnectSocket` | src/kick/KickServer.ts:24-25 | afterwards a socket exists; the invariant holds |
| `KickServer.KickServer.DisconnectSocket` | src/kick/KickServer.ts:54-57 | afterwards no socket exists; tracked rooms are untouched |
| `KickServer.KickServer.Subscribe` | src/kick/KickServer.ts:60-97 | a tracked room changes nothing and sends nothing. An untracked room becomes CONNECTING, every other entry stays, exactly one subscribe command is sent (none without a socket), and a listener and a timer are added. The invariant is kept |
| `KickServer.KickServer.Timeout` | src/kick/KickServer.ts:79-83 | when a timer for the room is armed, only that room's entry is deleted and the timer is gone; otherwise nothing changes |
| `KickServer.KickServer.Confirm` | src/kick/KickServer.ts:86-92 | the room becomes CONNECTED, and its timer is cleared, exactly when some earlier subscribe registered a listener for it. No other entry changes. A room never subscribed changes nothing |
| `KickServer.KickServer.OnMessage` | src/kick/KickServer.ts:31-51 | the outcome is the decoded frame; only a confirmation for a room with a listener changes state, as `Confirm` does |
| `KickServer.KickServer.ConnectToChannel` | src/kick/KickServer.ts:99-108 | a missing or zero id fails and changes nothing; any other id is subscribed as `Subscribe` does |
| `KickServer.SubscribeTwice` | src/kick/KickServer.ts:60-76 | two subscribes for one room with no event between them send at most one command, and exactly one for an untracked room with a socket |
| `KickServer.LateConfirmation` | src/kick/KickServer.ts:79-92 | subscribe, timeout, then confirmation leaves the room CONNECTED: the entry comes back |
| `IrcProtocol.UpToSpace` | src/irc/IrcServer.ts:69 | `split(" ")[0]` is the longest prefix with no space; it ends at the first space or at the end |
| `IrcProtocol.StripCrLf` | src/irc/IrcServer.ts:69 | the result has no CR or LF, is no longer than the input, keeps a space-free input space-free, and leaves a CR/LF-free input unchanged |
| `IrcProtocol.ChannelToken` | src/irc/IrcServer.ts:69 | the channel token cut after the 6-character prefix has no space, CR or LF |
| `IrcProtocol.ParseChunk` | src/irc/IrcServer.ts:68-74 | a chunk is a JOIN exactly when it starts `JOIN #`. It is a PART exactly when it starts `PART #` and not `JOIN #`. Otherwise it is no request. The channel is the token after the 6-character prefix in both cases |
| `IrcProtocol.Replies` | src/irc/IrcServer.ts:70-77 | JOIN replies `Joining #ch ...` then `Joined #ch !`, PART replies `Parting #ch ...` then `Parted #ch !`, and other chunks get no reply |
| `IrcProtocol.ReplyLines` | src/irc/IrcServer.ts:70-77 | for a channel without space, CR or LF, each reply is one line that ends in CR LF and has no other CR or LF |
| `IrcProtocol.RepliesAreLines` | src/irc/IrcServer.ts:66-79 | whatever the chunk, every reply written is exactly one CR LF terminated line |
| `IrcProtocol.ParseOneRequest` | src/irc/IrcServer.ts:68-74 | prefix, a token, any CR/LF, then nothing or a space: the request names exactly that token, for both prefixes (so `JOIN #xqc\r\n` joins `xqc`) |
| `IrcProtocol.RunOnRequests` | src/irc/IrcServer.ts:66-74 | a chunk holding one request and the start of a second is not split into lines: the tokens run together (`JOIN #a\r\nJOIN #b\r\n` joins `aJOIN`) |
| `IrcServer.IndexAfterJoin` | src/irc/IrcServer.ts:39-45 | after a join the channel is a key whose members are the old ones plus the client. Other entries are unchanged and no entry becomes empty. Joining again changes nothing |
| `IrcServer.IndexAfterPart` | src/irc/IrcServer.ts:47-53 | after a part the client is not a member. The key stays exactly when other members remain, and other entries are unchanged. No entry becomes empty. Without an entry nothing changes |
| `IrcServer.JoinThenPart` | src/irc/IrcServer.ts:39-53 | parting undoes a join by a client that was not in the channel |
| `IrcServer.Client.constructor` | src/irc/IrcServer.ts:57-61 | a new client is `anon`, with no channels and nothing written |
| `IrcServer.IrcServer.constructor` | src/irc/IrcServer.ts:17-22 | starts with no clients and an empty index |
| `IrcServer.IrcServer.JoinChannel` | src/irc/IrcServer.ts:39-45 | the client's set gains the channel and the index follows `IndexAfterJoin`. Other clients are untouched, and joining twice equals joining once. The non-empty and inverse-view invariants are kept |
| `IrcServer.IrcServer.PartChannel` | src/irc/IrcServer.ts:47-53 | the client's set loses the channel and the index follows `IndexAfterPart`. Other clients are untouched, and both invariants are kept |
| `IrcServer.IrcServer.HandleConnection` | src/irc/IrcServer.ts:55-64 | appends one fresh client, `anon`, with no channels, to whom exactly the welcome text was written; the index is unchanged |
| `IrcServer.IrcServer.HandleData` | src/irc/IrcServer.ts:66-79 | writes the replies of the chunk in order and joins or parts the parsed channel. A chunk with neither prefix changes nothing. The client's nick never changes. The invariants are kept |
| `IrcServer.JoinScenario` | src/irc/IrcServer.ts:55-79 | a new client sending `JOIN #xqc\r\n` reads the welcome, then `Joining #xqc ...` and `Joined #xqc !`, and is the one member of `xqc` |

## Left out

- Socket and WebSocket lifecycle: `start`, `stop`, `listen`, the `open`/`error`/`close` forwarding and the re-emitted `message` event. Only whether `socket` is null is kept, because `socket?.send` depends on it.
- The state of an existing socket: the model treats any non-null socket as able to send. A `ws` socket that is still connecting throws on `send`, which rejects the promise before the map is set. A closing or closed socket drops the frame without throwing; the map is still set, and `sent` records a command that never left.
- The promise made by `subscribeToChannel` (src/kick/KickServer.ts:66) is neither returned nor awaited, and src/index.ts installs no rejection handler. Under Node's default `--unhandled-rejections=throw` (Node 15 and later), either way that promise rejects ends the process: the `rej()` of the first subscribe timeout (:82), or a `send` that throws on a socket still connecting (:67). Every run in which the model goes on after `Timeout`, `LateConfirmation` included, describes a process started in a non-default mode.
- KickChannel.DecodeFrame and KickServer.KickServer.OnMessage: a `Throws` outcome (`data.event` on `null` at src/kick/KickServer.ts:42, `.match` on a non-string channel at :46) leaves the model's state unchanged and later events are still handled. In the real process the TypeError escapes the `ws` message callback, and src/index.ts installs no `uncaughtException` handler, so the process ends there; the model does not capture that termination.
- `JSON.parse` of the inbound frame is not modelled: a frame arrives already decoded (`Frame`). `JSON.stringify` of the subscribe command is not modelled either: `sent` logs the command values.
- Room ids are unbounded integers. `parseInt` loses precision above 2^53, ids of 10^21 or more print in exponent form, and non-integral ids are not modelled.
- `kickApi.getChannel` and the `JSON.parse` of its body (src/kick/KickApi.ts) are an oracle, the `id` argument of `ConnectToChannel`; its HTTP, TLS and singleton guard are foreign code.
- The `setInterval` echo loop of the `IrcServer` constructor (timer and `Math.random`).
- Disconnect: the `end` handler does nothing, so clients are never removed and their memberships stay; the model has no disconnect event.
- `Buffer.toString` decoding of a chunk: a chunk arrives as a string of characters. TCP does not reassemble lines, and neither does the model.
- `console` logging, src/index.ts wiring, src/config.ts and src/logs.ts.
- IrcServer.IrcServer.JoinChannel: requires the client to be connected (in `clients`), as its only caller, the connection's own data handler, guarantees; joining an unconnected client object is not modelled.
