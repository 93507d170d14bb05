/**
 * The values exchanged between the client, the chat gateway and the Lavalink v4
 * backend: parsed JSON, the two halves of a voice connection, the player snapshots,
 * the inbound WebSocket messages, the outbound REST requests and the errors thrown.
 * Payload contents the client never looks into (track info, exception details,
 * stats figures) are kept as opaque `Json` values.
 */
module Protocol {
  import opened Wrappers

  /** Discord snowflakes are strings; a missing id (undefined, null or "") is "". */
  type GuildId = string
  type ChannelId = string
  type UserId = string

  /** JavaScript's `!id` test on an id field. */
  predicate Missing(id: string) { id == "" }

  /** A parsed JSON value (numbers restricted to integers). */
  datatype Json =
    | JNull
    | JBool(b: bool)
    | JNumber(n: int)
    | JString(s: string)
    | JArray(items: seq<Json>)
    | JObject(fields: map<string, Json>)

  /** JavaScript truthiness of a parsed JSON value (`undefined` is represented by JNull). */
  predicate Truthy(j: Json)
  {
    match j
    case JNull => false
    case JBool(b) => b
    case JNumber(n) => n != 0
    case JString(s) => s != ""
    case _ => true
  }

  /** The `d` of a gateway VOICE_SERVER_UPDATE. */
  datatype VoiceServerPayload = VoiceServerPayload(guildId: GuildId, token: string, endpoint: Option<string>)

  /** The `d` of a gateway VOICE_STATE_UPDATE (the fields the client reads). */
  datatype VoiceStatePayload = VoiceStatePayload(guildId: GuildId, userId: UserId, sessionId: string, channelId: Option<ChannelId>)

  /** The transport snapshot of a player; `time == 0` means no report yet, `ping == -1` not connected. */
  datatype PlayerState = PlayerState(time: int, position: int, connected: bool, ping: int)

  datatype Track = Track(encoded: string, info: Json)

  /** The data snapshot of a player, as last returned by the backend. */
  datatype PlayerData = PlayerData(track: Option<Track>, volume: int, paused: bool, filters: map<string, Json>)

  const InitialState: PlayerState := PlayerState(0, 0, false, -1)
  const InitialData: PlayerData := PlayerData(None, 100, false, map[])

  /** The `type` of an inbound `event` message, with the fields the client forwards. */
  datatype TrackEvent =
    | TrackStartEvent(track: Track)
    | TrackEndEvent(track: Track, reason: string)
    | TrackExceptionEvent(track: Track, exception: Json)
    | TrackStuckEvent(track: Track, thresholdMs: int)
    | WebSocketClosedEvent(code: int, reason: string, byRemote: bool)
    | UnknownEvent(eventType: string)

  /** An inbound WebSocket message, by its `op`. `Stats.fields` is the whole message object as received, `op` key included. */
  datatype WsMessage =
    | Ready(sessionId: string)
    | Stats(fields: map<string, Json>)
    | PlayerUpdate(guildId: GuildId, state: PlayerState)
    | Event(guildId: GuildId, event: TrackEvent)
    | UnknownOp(op: string)

  /** A domain event a player emits to its listeners. */
  datatype Emission =
    | Start(track: Track)
    | End(track: Track, reason: string)
    | Error(message: WsMessage)
    | Stuck(message: WsMessage)
    | WsClosed(message: WsMessage)

  /** A player's `lastError`: the event message, with the receipt time stamped on exceptions. */
  datatype LastError = LastError(message: WsMessage, at: Option<int>)

  /** The `voice` object injected into an update-player body. */
  datatype VoiceBody = VoiceBody(token: string, endpoint: Option<string>, sessionId: string)

  /** An update-player JSON body: the caller's keys (never `voice`) plus the injected `voice`. */
  datatype UpdateBody = UpdateBody(options: map<string, Json>, voice: VoiceBody)

  /** A REST request as issued; `sessionId == None` is the literal `undefined` the URL then carries. */
  datatype Request =
    | GetVersion
    | PatchPlayer(sessionId: Option<string>, guildId: GuildId, query: string, body: UpdateBody)
    | DeletePlayer(sessionId: Option<string>, guildId: GuildId)
    | GetLoadTracks(identifier: string)
    | PostDecodeTracks(tracks: seq<Json>)
    | GetDecodeTrack(encodedTrack: string)
    | GetStats

  /** The HTTP outcome of a request, given to the model as an input. */
  datatype Response<T> = Success(body: T) | HttpFailure(status: int, statusText: string, text: string)

  /** Gateway opcode 4 (Voice State Update). */
  const VoiceStateUpdateOp: int := 4

  /** A gateway packet `{op, d: {guild_id, channel_id, self_deaf, self_mute}}`. */
  datatype GatewayPacket = GatewayPacket(op: int, guildId: GuildId, channelId: Option<ChannelId>, selfDeaf: bool, selfMute: bool)

  /** A call of the `send(guildID, packet)` function given to the instance. */
  datatype Outbound = Outbound(guildId: GuildId, packet: GatewayPacket)

  /** The errors the client throws (or rejects with). */
  datatype Failure =
    | NoUrl
    | NoUserId
    | InvalidUrl
    | AlreadyConnected
    | InvalidApiVersion(header: Option<string>)
    | SocketFailed
    | NoGuildId
    | NoVoiceServerUpdate
    | NoVoiceStateUpdate
    | RequestFailed(request: Request, status: int, statusText: string, text: string)
    | NoIdentifier
    | NoTracks
    | TracksNotArray
    | TracksEmpty
    | NoTrack

  /** The outcome of awaiting a response: its body, or the "Failed to ..." error naming the request. */
  function Settle<T>(request: Request, response: Response<T>): (r: Result<T, Failure>)
    ensures r.Ok? <==> response.Success?
    ensures r.Ok? ==> r.value == response.body
    ensures r.Err? ==> r.error == RequestFailed(request, response.status, response.statusText, response.text)
  {
    match response
    case Success(body) => Ok(body)
    case HttpFailure(status, statusText, text) => Err(RequestFailed(request, status, statusText, text))
  }
}
