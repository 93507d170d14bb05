# Lavalink v4 client: voice bookkeeping and player state, in Dafny

This project models the stateful core of a JavaScript client for the Lavalink v4
audio backend (`src/classes/Instance.js`, `src/classes/Player.js`,
`src/classes/PlayerManager.js`):

- **`Instance`** is the connection session and the voice coordinator. It holds the
  `ready` flag, the backend's `sessionID` and the stats snapshot. It also holds, per
  guild, the voice-server half (`serverState`) and the voice-state half (`voiceStates`)
  that Discord delivers separately. A single debounce slot (`pending`) names the guild
  whose merged update-player request runs when the timer fires (`FireTimer`). The class
  dispatches inbound WebSocket messages, joins voice channels through the gateway `send`
  function, and issues the update, destroy, load, decode and stats requests.
- **`Player`** is one guild's player. Inbound messages replace its transport snapshot
  (`state`) and its data snapshot (`data`) wholesale, or set `track` and `lastError`.
  Each message emits at most one domain event (`start`, `end`, `error`, `stuck`,
  `wsClosed`). `Position(now)` interpolates the playback position, and `IsDestroyed()`
  compares this object with the registry's entry by reference.
- **`PlayerManager`** is the registry from guild to player: `Get` creates a player
  lazily, `Has` only reads, and `Delete` and `Destroy` remove.

Files:

- `wrappers.dfy`: `Option`, `Result`, `MapGet`.
- `protocol.dfy`: the payloads, messages, requests, responses and errors, as datatypes.
- `player_model.dfy`: `PlayerModel.Handle`, the reference meaning of one inbound message
  for a player, plus lemmas about whole message streams.
- `voice_model.dfy`: `VoiceModel`, the voice coordinator as a value, plus lemmas about
  whole streams of gateway events.
- `lavalink.dfy`: the three classes. Each method is proved to follow the reference
  functions, and two client scenarios check the classes end to end.

Effects on the outside world are explicit:

- Each REST request is appended to `Instance.requests`, and its HTTP outcome is a method
  input (`Response`).
- Each call of the gateway `send` function is appended to `Instance.sent`.
- Each emitted event is appended to `Player.emitted`.
- The clock is a `now` parameter.
- The URL parser's verdict is the `urlParses` input of `Instance.Create`.
- The `lavalink-api-version` header is the input of `Instance.Connect`.

Three behaviours of the code are easy to miss, and the model keeps them:

- **Channel tracking is never written.** `#guildChannels` is declared and read but never
  written (Instance.js:11, :94). So `join` clears both voice halves on every call, even
  when the guild rejoins the same channel. `Instance.Valid()` records that the map stays
  empty, and `Instance.Join` is proved to always clear.
- **There is one debounce timer, not one per guild** (Instance.js:30, :238). Arming the
  timer for one guild cancels another guild's pending update
  (`VoiceModel.PendingIsLastArmed`). `updatePlayer` also clears the timer whichever guild
  it was armed for (`Instance.UpdatePlayer` ensures `pending == None`).
- **Requests do not check readiness or the session id.** `updatePlayer` and
  `destroyPlayer` do not look at `ready` or `sessionID`. A request made before `ready`
  carries an undefined session id, which is `sessionId == None` in the request.

A missing id (`undefined`, `null` or `""`, which every `!id` guard of the source treats
alike) is the empty string, tested by `Missing`.

## Model

| member | source | states |
|---|---|---|
| Protocol.Settle | src/classes/Instance.js:174-176 | a request's outcome is the response body on success; otherwise it is the failure carrying the request, the status, the status text and the body text |
| PlayerModel.Handle | src/classes/Player.js:135-176 | emissions are append-only, at most one per message; only `playerUpdate` touches the transport snapshot, and it replaces it wholesale, leaving data and lastError alone; no message changes volume, pause or filters; lastError only ever becomes the message itself; other ops change nothing |
| PlayerModel.TrackEventEffects | src/classes/Player.js:141-170 | start sets the track and emits `start`; end clears it and emits `end {track, reason}`; an exception becomes lastError stamped with the receipt time and emits `error`; stuck becomes lastError and emits `stuck`; a closed socket only emits `wsClosed`; an unknown type changes nothing |
| PlayerModel.ReplayAppend | src/classes/Player.js:135-176 | handling a stream and then one more message is handling the longer stream |
| PlayerModel.ReplayStateIsLastReport | src/classes/Player.js:137-139 | after any message stream, the transport snapshot is the one carried by the last `playerUpdate`, or the initial one if there is none |
| PlayerModel.ReplayTrackIsLastTrackEvent | src/classes/Player.js:143-152 | after any stream, the cached track is decided by the last start event (its track) or end event (none) alone |
| PlayerModel.ReplayKeepsSettingsAndAppendsEmissions | src/classes/Player.js:135-176 | inbound messages never change volume, pause or filters; the emission log only grows, by at most one event per message |
| PlayerModel.StartThenEnd | src/classes/Player.js:143-152 | a start event then an end event leave no track and emit exactly `[start, end]`, in that order; the state and lastError are untouched |
| VoiceModel.OnServer | src/classes/Instance.js:245-250 | a server half without a guild id changes nothing; otherwise it is stored under its guild and the single timer is re-armed for that guild, replacing any earlier one |
| VoiceModel.OnState | src/classes/Instance.js:252-258 | a state half of another user, or without a guild id, changes neither half map nor the timer; the client's own is stored and re-arms the timer for its guild |
| VoiceModel.ClearHalves | src/classes/Instance.js:94-97 | both halves of the guild are dropped; every other guild's halves and the pending timer are kept |
| VoiceModel.FireTarget | src/classes/Instance.js:239-242 | a firing timer targets its armed guild exactly when both halves of that guild are stored |
| VoiceModel.UpdateBlocker | src/classes/Instance.js:152-155 | update-player refuses, in this order, a missing guild id, a missing server half and a missing state half; otherwise it goes ahead |
| VoiceModel.ReplayAppend | src/classes/Instance.js:236-258 | replaying a stream and then one more gateway event is replaying the longer stream |
| VoiceModel.PendingIsLastArmed | src/classes/Instance.js:236-243 | after any stream of gateway events, the pending guild is the one armed by the last accepted half; every earlier pending guild is cancelled |
| VoiceModel.LastServerWins | src/classes/Instance.js:245-250 | with no later server half for the guild and no join of it, the stored server half is the last one received |
| VoiceModel.LastStateWins | src/classes/Instance.js:252-258 | with no later own state half for the guild and no join of it, the stored state half is the client's last one |
| VoiceModel.MergedUpdateAfterBothHalves | src/classes/Instance.js:236-258 | both halves of a guild arriving in any order and any number of times make the timer fire for that guild, with the voice object built from the last server half's token and endpoint and the last state half's session id |
| VoiceModel.NoServerWithoutServerEvent | src/classes/Instance.js:245-250 | a guild without a server half gets none until a server event for it arrives |
| VoiceModel.NoStateWithoutOwnStateEvent | src/classes/Instance.js:252-258 | a guild without a state half gets none until the client's own state event for it arrives |
| VoiceModel.ServerHalfAloneNeverFires | src/classes/Instance.js:239-242 | if only server halves (or other users' state halves) arrive for a guild, the timer never fires an update for it |
| VoiceModel.JoinDiscardsEarlierServerHalf | src/classes/Instance.js:92-97 | after a join of the guild, the timer never fires an update for it until a new server half for it arrives, whatever state halves come |
| Lavalink.BuildUpdate | src/classes/Instance.js:156-166 | the query is `?noReplace=true` exactly when the caller's `noReplace` is strictly `true`, and then that key leaves the body; any other value stays in the body with an empty query; the caller's other keys go through unchanged; `voice` is the server half's token and endpoint plus the state half's session id |
| Lavalink.SocketUrl | src/classes/Instance.js:68 | `https` becomes `wss`, `http` becomes `ws`, any other address is kept, and `/v4/websocket` is appended |
| Lavalink.TracksInput | src/classes/Instance.js:205-208 | a falsy argument, a non-array and an empty array are refused, in that order; only a non-empty array passes, unchanged |
| Lavalink.StatsSnapshot | src/classes/Instance.js:119-124 | the stored stats are the message itself, stamped with the receipt time as `lastUpdated`, with its `op` key removed |
| Lavalink.Player.constructor | src/classes/Player.js:13-38 | a new player has state `{time 0, position 0, connected false, ping -1}`, data `{track null, volume 100, paused false, filters {}}`, no lastError and nothing emitted |
| Lavalink.Player.Position | src/classes/Player.js:80-83 | while paused, the position is exactly the reported one; while playing, it is the reported one plus the time elapsed since the report, so it is never behind the report |
| Lavalink.Player.IsDestroyed | src/classes/Player.js:129-133 | true exactly when the registry has no entry for the guild or the entry is a different object |
| Lavalink.Player.HandleWSMessage | src/classes/Player.js:135-176 | the player's snapshots, lastError and emission log change exactly as PlayerModel.Handle says |
| Lavalink.Player.HandleNewData | src/classes/Player.js:178-180 | the data snapshot is replaced wholesale, and nothing else changes |
| Lavalink.Player.Update | src/classes/Player.js:99-102 | delegates to update-player for its guild: a missing guild id or half refuses it in that order, with no request; refused calls also leave the timer and every player unchanged; otherwise one PATCH built from the options and both halves is sent and the timer is cleared; it returns this player exactly on success; a failed PATCH leaves every player unchanged, and a successful one changes only the guild's data snapshot |
| Lavalink.Player.Join | src/classes/Player.js:112-115 | delegates to the instance's join for its guild: a missing guild id throws and leaves the halves, the timer and the sent packets unchanged; otherwise both halves are dropped and one opcode-4 packet is sent |
| Lavalink.Player.Destroy | src/classes/Player.js:121-123 | delegates to destroy-player: no request without a guild id, otherwise one DELETE; on success this object reports itself destroyed, its guild's halves are gone and one leave packet is sent; on failure the registry, the halves and the sent packets are unchanged |
| Lavalink.PlayerManager.constructor | src/classes/PlayerManager.js:10-12 | a new registry is empty |
| Lavalink.PlayerManager.Get | src/classes/PlayerManager.js:19-27 | a present guild's player is returned and the map is unchanged; an absent guild gets one new player for that guild, with the initial snapshots, stored and returned, and every other entry stays |
| Lavalink.PlayerManager.Has | src/classes/PlayerManager.js:34-36 | true exactly when the guild has an entry; as a function it changes nothing |
| Lavalink.PlayerManager.Delete | src/classes/PlayerManager.js:42-44 | removes the guild and leaves every other entry as it was |
| Lavalink.PlayerManager.Destroy | src/classes/PlayerManager.js:51-54 | no request without a guild id, otherwise one DELETE; on a successful backend destroy the guild is removed (its halves cleared, a leave packet sent); on failure the map, the halves and the sent packets are unchanged |
| Lavalink.Instance.constructor | src/classes/Instance.js:7-43 | a new instance is not ready, has no session id, no voice halves, no pending timer, zeroed stats, an empty registry wired back to it, and has sent nothing |
| Lavalink.Instance.Create | src/classes/Instance.js:32-36 | refuses a missing URL, then a missing user id, then an unparsable URL; otherwise builds a fresh instance with the given settings, not ready, no session id, no voice halves or timer, zeroed stats, an empty registry, a pending ready gate and nothing requested, opened or sent |
| Lavalink.Instance.Connect | src/classes/Instance.js:61-90 | when ready, it throws with no request and no socket; otherwise it probes `/version`; any header but `"4"` throws without opening a socket; with `"4"` it opens one socket at the derived address and resolves, waits or fails as the ready gate stands |
| Lavalink.Instance.OnSocketError | src/classes/Instance.js:80-83 | not ready any more; a still-pending ready gate is rejected |
| Lavalink.Instance.OnSocketClose | src/classes/Instance.js:84-87 | not ready any more |
| Lavalink.Instance.Join | src/classes/Instance.js:92-108 | a missing guild id throws and changes nothing; otherwise both halves of the guild are dropped (channel tracking is never written), the timer is untouched, and exactly one packet `{op 4, guild, channel (default null), self_deaf, self_mute}` is sent |
| Lavalink.Instance.HandlePlayerEvent | src/classes/Instance.js:143-146 | the message goes to the guild's player, created if absent; no other player changes |
| Lavalink.Instance.HandleWSMessage | src/classes/Instance.js:111-136 | `ready` sets ready and the session id and resolves a pending gate; `stats` replaces the snapshot (see StatsSnapshot); `event`/`playerUpdate` without a guild id changes nothing and creates no player; with one, it reaches that guild's player (created if absent) as PlayerModel.Handle says; other ops change nothing |
| Lavalink.Instance.NewPlayerData | src/classes/Instance.js:138-141 | the guild's player (created if absent) gets the data snapshot wholesale; no other player changes |
| Lavalink.Instance.UpdatePlayer | src/classes/Instance.js:152-180 | a missing guild id, server half or state half throws with no request and no other change; otherwise it clears the timer, sends one PATCH carrying the merged voice object and the noReplace query, and on success gives the guild's player the response data and returns it |
| Lavalink.Instance.DestroyPlayer | src/classes/Instance.js:182-194 | a missing guild id throws with no request; otherwise it sends one DELETE; on failure it throws and changes nothing else; on success it forgets the guild's player, drops its halves and sends one leave packet |
| Lavalink.Instance.LoadTrack | src/classes/Instance.js:196-203 | an empty identifier throws before any request; otherwise one search request is sent and settled |
| Lavalink.Instance.DecodeTracks | src/classes/Instance.js:205-217 | anything but a non-empty array throws before any request; otherwise one batch decode is sent and settled |
| Lavalink.Instance.DecodeTrack | src/classes/Instance.js:219-226 | an empty track throws before any request; otherwise one decode is sent and settled |
| Lavalink.Instance.FetchStats | src/classes/Instance.js:228-234 | one stats request is sent and settled |
| Lavalink.Instance.NewVoiceStateData | src/classes/Instance.js:236-243 | the single timer slot is armed for the guild, replacing whatever was armed |
| Lavalink.Instance.VoiceServerUpdate | src/classes/Instance.js:245-250 | the half maps and the timer change exactly as VoiceModel.OnServer says |
| Lavalink.Instance.VoiceStateUpdate | src/classes/Instance.js:252-258 | the half maps and the timer change exactly as VoiceModel.OnState says |
| Lavalink.Instance.FireTimer | src/classes/Instance.js:239-242 | the timer is spent and no new one is armed; if both halves of the armed guild are stored, exactly one update-player request with empty options and the merged voice object is sent, and no player changes unless it succeeds; otherwise nothing is sent and no player changes |
| Lavalink.DestroyThenGet | src/classes/PlayerManager.js:51-54 | after a successful destroy, `get` returns a new player with the initial snapshots, distinct from the old one, which now reports itself destroyed |
| Lavalink.ServerThenStateThenFire | src/classes/Instance.js:236-258 | a server half then the client's own state half for a guild, then the timer firing, send exactly one PATCH whose voice object combines both halves, and leave no timer armed |

## Left out

- WebSocket construction, its `message`/`error`/`close` wiring and `JSON.parse` (Instance.js:68-87) are network I/O. So are the socket's headers, including the client name; its default `WilsontheWolf-Lavalink/<version>` (Instance.js:32) is not modelled, and `clientName` is a plain argument. Inbound messages arrive already decoded as `WsMessage`. The `error` and `close` handlers are `OnSocketError` and `OnSocketClose`.
- `fetch` (Instance.js:45-59) is network I/O: the `Authorization` and `Content-Type` headers, the `/v4` prefix, URL joining and `encodeURIComponent` are not modelled. A request is a structured `Request` value rather than a URL string. A fetch that rejects (network failure) is not modelled, and neither is a `res.json()` that fails.
- `src/functions/util.js` is not part of this model. `verifyURL` calls the WHATWG URL parser, whose verdict is the `urlParses` input. `appendPath` wraps `URL` and `path.join`. `externalPromise` is the ready gate, modelled as `Gate`.
- The constructor's check that `send` is a function (Instance.js:34) is left out: `send` is the `sent` log here, so it is always present.
- `setTimeout`, `clearTimeout` and `Date.now()` are host scheduling and clock. They become the `pending` slot, `FireTimer` and the `now` parameters. The one-second delay is not modelled: a timer fires when `FireTimer` is called.
- Asynchrony is not modelled: each operation runs atomically, with its response as an input. So the model cannot show another event arriving while a request is in flight. It also does not show that a rejected update started by the timer is never caught (Instance.js:241).
- `EventEmitter` listener mechanics (Player.js:9) are left out; emissions are recorded in `emitted`. A listener that throws is not modelled.
- Aliasing of JavaScript objects is left out. The caller's `options` object loses `noReplace` and gains `voice` (Instance.js:159, :162). The object `updatePlayer` returns is the one a later `TrackStartEvent` mutates. The exception message handed to `error` listeners is the same object later stamped with `at` (Player.js:154-156).
- The plain getters (`state`, `guildID`, `instance`, `track`, `volume`, `paused`, `filters`, `connected`, `ping`, Player.js:44-92) and `stats` (Instance.js:148-150) are left out. They return fields that the model exposes directly.
- Payloads are assumed well formed. For example, a `playerUpdate` without `state` would set the snapshot to `undefined`. Numbers are integers, and console logging is left out.
- PlayerModel.TrackEventEffects: assumes an `error` listener is registered on the player. Without one, `emit('error', …)` throws `ERR_UNHANDLED_ERROR` (Player.js:155). Then `lastError` is set but never stamped with `at`, and the exception escapes `handleWSMessage` into the socket's `message` callback (Instance.js:76-78). The model always emits `error` and stamps `at`; the same holds for `PlayerModel.Handle` and `Lavalink.Player.HandleWSMessage`.
- testing/bot/src/index.js, a demo bot, is not part of this model.
