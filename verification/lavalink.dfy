/**
 * The client's three stateful classes: `Instance` (connection session and voice
 * coordinator), `PlayerManager` (the guild -> player registry) and `Player` (one
 * guild's player state). They refer to one another (a player and the registry know
 * their instance, the instance owns the registry), so they share this module.
 *
 * Network and host effects are explicit: every REST request is appended to
 * `Instance.requests` and its response is a method input; every call of the gateway
 * `send` function is appended to `Instance.sent`; every event a player emits is
 * appended to `Player.emitted`; the debounce timer is the `Instance.pending` slot and
 * its expiry the `FireTimer` method; the clock is a `now` parameter.
 */
module Lavalink {
  import opened Wrappers
  import opened Protocol
  import PlayerModel
  import VoiceModel

  /** The state of the one-shot promise `connect` waits on (`#readyPromise`). */
  datatype Gate = Pending | Resolved | Rejected

  /** How a `connect` call ends: it resolves, it is still waiting for `ready`, or it throws. */
  datatype ConnectOutcome = Connected | Waiting | ConnectFailed(error: Failure)

  /** The query string and body of an update-player request. */
  datatype UpdateCall = UpdateCall(query: string, body: UpdateBody)

  /** The caller asked for `noReplace: true` (strictly the boolean true). */
  predicate NoReplaceRequested(options: map<string, Json>)
  {
    "noReplace" in options && options["noReplace"] == JBool(true)
  }

  /**
   * The query string and JSON body `updatePlayer` sends: `?noReplace=true` exactly when the
   * caller's `noReplace` is `true` (and then that key leaves the body), the caller's other keys
   * as given, and `voice` made from the server half's token and endpoint and the state half's session id.
   */
  function BuildUpdate(options: map<string, Json>, server: VoiceServerPayload, state: VoiceStatePayload): (r: UpdateCall)
    ensures r.query == "?noReplace=true" || r.query == ""
    ensures r.query == "?noReplace=true" <==> NoReplaceRequested(options)
    ensures r.body.voice == VoiceBody(server.token, server.endpoint, state.sessionId)
    ensures "noReplace" in r.body.options <==> "noReplace" in options && !NoReplaceRequested(options)
    ensures "voice" !in r.body.options
    ensures forall k :: k != "voice" && k != "noReplace" ==> (k in r.body.options <==> k in options)
    ensures forall k :: k in r.body.options ==> k in options && r.body.options[k] == options[k]
  {
    var noReplace := NoReplaceRequested(options);
    var kept := if noReplace then options - {"noReplace"} else options;
    UpdateCall(if noReplace then "?noReplace=true" else "",
               UpdateBody(kept - {"voice"}, VoiceBody(server.token, server.endpoint, state.sessionId)))
  }

  /** The stream address: a leading `http` of the base URL becomes `ws`, then `/v4/websocket` is appended. */
  function SocketUrl(url: string): (r: string)
    ensures |r| >= 13 && r[|r| - 13..] == "/v4/websocket"
    ensures |url| >= 5 && url[..5] == "https" ==> r == "wss" + url[5..] + "/v4/websocket"
    ensures |url| >= 5 && url[..5] == "http:" ==> r == "ws:" + url[5..] + "/v4/websocket"
    ensures |url| < 4 || url[..4] != "http" ==> r == url + "/v4/websocket"
  {
    (if |url| >= 4 && url[..4] == "http" then "ws" + url[4..] else url) + "/v4/websocket"
  }

  /** Whether `decodeTracks` accepts its argument: a non-empty array, checked as the source does. */
  function TracksInput(tracks: Json): (r: Result<seq<Json>, Failure>)
    ensures r.Ok? <==> tracks.JArray? && |tracks.items| > 0
    ensures r.Ok? ==> r.value == tracks.items
    ensures !Truthy(tracks) ==> r == Err(NoTracks)
    ensures Truthy(tracks) && !tracks.JArray? ==> r == Err(TracksNotArray)
    ensures tracks.JArray? && tracks.items == [] ==> r == Err(TracksEmpty)
  {
    if !Truthy(tracks) then Err(NoTracks)
    else if !tracks.JArray? then Err(TracksNotArray)
    else if |tracks.items| == 0 then Err(TracksEmpty)
    else Ok(tracks.items)
  }

  /** The stats snapshot an instance starts with: every figure zero. */
  const InitialStats: map<string, Json> := map[
    "lastUpdated" := JNumber(0),
    "frameStats" := JObject(map["sent" := JNumber(0), "nulled" := JNumber(0), "deficit" := JNumber(0)]),
    "players" := JNumber(0),
    "playingPlayers" := JNumber(0),
    "uptime" := JNumber(0),
    "memory" := JObject(map["free" := JNumber(0), "used" := JNumber(0), "allocated" := JNumber(0), "reservable" := JNumber(0)]),
    "cpu" := JObject(map["cores" := JNumber(0), "systemLoad" := JNumber(0), "lavalinkLoad" := JNumber(0)])
  ]

  /** A stats message as stored: the message itself, stamped with the receipt time, without its `op`. */
  function StatsSnapshot(fields: map<string, Json>, now: int): (r: map<string, Json>)
    ensures "op" !in r
    ensures "lastUpdated" in r && r["lastUpdated"] == JNumber(now)
    ensures forall k :: k != "op" && k != "lastUpdated" ==> (k in r <==> k in fields)
    ensures forall k :: k in r && k != "lastUpdated" ==> r[k] == fields[k]
  {
    fields["lastUpdated" := JNumber(now)] - {"op"}
  }

  /** One guild's player: the last transport and data snapshots, the last error and the events emitted. */
  class Player {
    const guildID: GuildId
    const instance: Instance
    var state: PlayerState
    var data: PlayerData
    var lastError: Option<LastError>
    var emitted: seq<Emission>

    constructor (guildID: GuildId, instance: Instance)
      ensures this.guildID == guildID && this.instance == instance
      ensures state == InitialState && data == InitialData && lastError == None && emitted == []
      ensures View() == PlayerModel.Fresh
    {
      this.guildID := guildID;
      this.instance := instance;
      state := InitialState;
      data := InitialData;
      lastError := None;
      emitted := [];
    }

    function View(): PlayerModel.PlayerView
      reads this
    {
      PlayerModel.PlayerView(state, data, lastError, emitted)
    }

    /** The interpolated playback position at wall-clock time `now`: frozen while paused. */
    function Position(now: int): (r: int)
      reads this
      ensures data.paused ==> r == state.position
      ensures !data.paused ==> r - state.position == now - state.time
      ensures !data.paused && state.time <= now ==> state.position <= r
    {
      if data.paused then state.position else state.position + (now - state.time)
    }

    /** Whether the registry no longer holds this very object for its guild. */
    function IsDestroyed(): (r: bool)
      reads instance.players
      ensures r <==> guildID !in instance.players.players || instance.players.players[guildID] != this
      ensures !r ==> instance.players.Has(guildID)
    {
      if !instance.players.Has(guildID) then true
      else instance.players.players[guildID] != this
    }

    /** `_handleWSMessage`: apply one forwarded inbound message. */
    method HandleWSMessage(message: WsMessage, now: int)
      modifies this
      ensures View() == PlayerModel.Handle(old(View()), message, now)
    {
      match message {
        case PlayerUpdate(_, st) =>
          state := st;
        case Event(_, ev) =>
          match ev {
            case TrackStartEvent(t) =>
              data := data.(track := Some(t));
              emitted := emitted + [Start(t)];
            case TrackEndEvent(t, reason) =>
              data := data.(track := None);
              emitted := emitted + [End(t, reason)];
            case TrackExceptionEvent(_, _) =>
              lastError := Some(LastError(message, None));
              emitted := emitted + [Error(message)];
              lastError := Some(LastError(message, Some(now)));
            case TrackStuckEvent(_, _) =>
              lastError := Some(LastError(message, None));
              emitted := emitted + [Stuck(message)];
            case WebSocketClosedEvent(_, _, _) =>
              emitted := emitted + [WsClosed(message)];
            case UnknownEvent(_) =>
          }
        case _ =>
      }
    }

    /** `_handleNewData`: the data snapshot is replaced wholesale. */
    method HandleNewData(d: PlayerData)
      modifies this`data
      ensures data == d
    {
      data := d;
    }

    /** `update`: an update-player request for this player's guild. */
    method Update(options: map<string, Json>, response: Response<PlayerData>) returns (r: Result<Player, Failure>)
      requires instance.Valid()
      modifies instance`requests, instance`pending, instance.players, instance.players.players.Values
      ensures instance.Valid()
      ensures r.Ok? ==> r.value == this && response.Success?
      ensures VoiceModel.UpdateBlocker(old(instance.Voice()), guildID).Some? ==> (
        r == Err(VoiceModel.UpdateBlocker(old(instance.Voice()), guildID).value) && instance.requests == old(instance.requests))
      ensures VoiceModel.UpdateBlocker(old(instance.Voice()), guildID).None? ==> (
        var call := BuildUpdate(options, instance.serverState[guildID], instance.voiceStates[guildID]);
        && instance.requests == old(instance.requests) + [PatchPlayer(instance.sessionID, guildID, call.query, call.body)]
        && instance.pending == None
        && (r.Ok? <==> response.Success?))
      ensures VoiceModel.UpdateBlocker(old(instance.Voice()), guildID).Some? ==> (
        instance.pending == old(instance.pending) && instance.PlayersUnchanged())
      ensures VoiceModel.UpdateBlocker(old(instance.Voice()), guildID).None? && response.HttpFailure? ==> instance.PlayersUnchanged()
      ensures VoiceModel.UpdateBlocker(old(instance.Voice()), guildID).None? && response.Success? ==> (
        r.Ok? && guildID in instance.players.players && instance.players.players[guildID].data == response.body
        && instance.TouchedOnly(guildID)
        && instance.players.players[guildID].View() == instance.OldView(guildID).(data := response.body))
    {
      var res := instance.UpdatePlayer(guildID, options, response);
      match res {
        case Ok(_) => r := Ok(this);
        case Err(e) => r := Err(e);
      }
    }

    /** `join`: join (or, with no channel, leave) a voice channel of this player's guild. */
    method Join(channelID: Option<ChannelId> := None, deaf: bool := false, mute: bool := false)
      returns (r: Result<Player, Failure>)
      requires instance.Valid()
      modifies instance`voiceStates, instance`serverState, instance`sent
      ensures instance.Valid()
      ensures Missing(guildID) ==> r == Err(NoGuildId) && instance.Voice() == old(instance.Voice()) && instance.sent == old(instance.sent)
      ensures !Missing(guildID) ==> (
        r == Ok(this)
        && instance.Voice() == VoiceModel.ClearHalves(old(instance.Voice()), guildID)
        && instance.sent == old(instance.sent) + [Outbound(guildID, GatewayPacket(VoiceStateUpdateOp, guildID, channelID, deaf, mute))])
    {
      var res := instance.Join(guildID, channelID, deaf, mute);
      match res {
        case Ok(_) => r := Ok(this);
        case Err(e) => r := Err(e);
      }
    }

    /** `destroy`: destroy this guild's player on the backend; this object then reports itself destroyed. */
    method Destroy(response: Response<()>) returns (r: Result<(), Failure>)
      requires instance.Valid()
      modifies instance`requests, instance`serverState, instance`voiceStates, instance`sent, instance.players
      ensures instance.Valid()
      ensures r.Ok? <==> !Missing(guildID) && response.Success?
      ensures Missing(guildID) ==> instance.requests == old(instance.requests)
      ensures !Missing(guildID) ==> instance.requests == old(instance.requests) + [DeletePlayer(instance.sessionID, guildID)]
      ensures r.Ok? ==> (
        IsDestroyed() && instance.players.players == old(instance.players.players) - {guildID}
        && instance.Voice() == VoiceModel.ClearHalves(old(instance.Voice()), guildID)
        && instance.sent == old(instance.sent) + [Outbound(guildID, GatewayPacket(VoiceStateUpdateOp, guildID, None, false, false))])
      ensures r.Err? ==> (
        instance.players.players == old(instance.players.players) && instance.Voice() == old(instance.Voice())
        && instance.sent == old(instance.sent))
    {
      r := instance.DestroyPlayer(guildID, response);
    }
  }

  /** The registry of players by guild. */
  class PlayerManager {
    /** The owning instance, wired right after the instance is allocated. */
    var instance: Instance?
    var players: map<GuildId, Player>

    constructor ()
      ensures instance == null && players == map[]
    {
      instance := null;
      players := map[];
    }

    /** `get`: the guild's player, created and stored if there is none; a present entry is returned as is. */
    method Get(g: GuildId) returns (p: Player)
      requires instance != null
      modifies this`players
      ensures g in players && players[g] == p
      ensures g in old(players) ==> p == old(players)[g] && players == old(players)
      ensures g !in old(players) ==> (
        fresh(p) && players == old(players)[g := p]
        && p.guildID == g && p.instance == instance && p.View() == PlayerModel.Fresh)
    {
      if g in players {
        p := players[g];
      } else {
        p := new Player(g, instance);
        players := players[g := p];
      }
    }

    /** `has`: whether the guild has a player; reading it changes nothing. */
    function Has(g: GuildId): (r: bool)
      reads this
      ensures r <==> g in players
    {
      g in players
    }

    /** `_delete`: forget the guild's player, and only that one. */
    method Delete(g: GuildId)
      modifies this`players
      ensures players == old(players) - {g}
      ensures g !in players && forall h :: h != g && h in old(players) ==> h in players && players[h] == old(players)[h]
    {
      players := players - {g};
    }

    /** `destroy`: destroy the guild's player on the backend, then forget it. */
    method Destroy(g: GuildId, response: Response<()>) returns (r: Result<(), Failure>)
      requires instance != null && instance.Valid() && instance.players == this
      modifies this`players, instance`requests, instance`serverState, instance`voiceStates, instance`sent
      ensures instance.Valid()
      ensures r.Ok? <==> !Missing(g) && response.Success?
      ensures Missing(g) ==> instance.requests == old(instance.requests)
      ensures !Missing(g) ==> instance.requests == old(instance.requests) + [DeletePlayer(instance.sessionID, g)]
      ensures r.Ok? ==> (
        players == old(players) - {g}
        && instance.Voice() == VoiceModel.ClearHalves(old(instance.Voice()), g)
        && instance.sent == old(instance.sent) + [Outbound(g, GatewayPacket(VoiceStateUpdateOp, g, None, false, false))])
      ensures r.Err? ==> players == old(players) && instance.Voice() == old(instance.Voice()) && instance.sent == old(instance.sent)
    {
      r := instance.DestroyPlayer(g, response);
      if r.Err? {
        return;
      }
      Delete(g);
    }
  }

  /** A connection to one Lavalink node and the voice bookkeeping of every guild. */
  class Instance {
    const url: string
    const pass: string
    const userID: UserId
    const clientName: string
    const players: PlayerManager
    var ready: bool
    var sessionID: Option<string>
    var voiceStates: map<GuildId, VoiceStatePayload>
    var serverState: map<GuildId, VoiceServerPayload>
    /** Declared and read by `join`, never written. */
    var guildChannels: map<GuildId, Option<ChannelId>>
    var stats: map<string, Json>
    /** `#voiceUpdateTimeout`: the guild of the one armed debounce timer, if any. */
    var pending: Option<GuildId>
    var gate: Gate
    /** The addresses of the WebSockets opened so far. */
    var sockets: seq<string>
    var requests: seq<Request>
    var sent: seq<Outbound>

    ghost predicate Valid()
      reads this, players
    {
      && players.instance == this
      && guildChannels == map[]
      && (pending.Some? ==> !Missing(pending.value))
      && forall g :: g in players.players ==> players.players[g].guildID == g && players.players[g].instance == this
    }

    function Voice(): VoiceModel.Voice
      reads this
    {
      VoiceModel.Voice(serverState, voiceStates, pending)
    }

    constructor (url: string, pass: string, userID: UserId, clientName: string)
      requires !Missing(url) && !Missing(userID)
      ensures Valid() && fresh(players) && players.players == map[]
      ensures this.url == url && this.pass == pass && this.userID == userID && this.clientName == clientName
      ensures !ready && sessionID == None && Voice() == VoiceModel.NoVoice && stats == InitialStats
      ensures gate == Pending && sockets == [] && requests == [] && sent == []
    {
      this.url := url;
      this.pass := pass;
      this.userID := userID;
      this.clientName := clientName;
      players := new PlayerManager();
      ready := false;
      sessionID := None;
      voiceStates := map[];
      serverState := map[];
      guildChannels := map[];
      stats := InitialStats;
      pending := None;
      gate := Pending;
      sockets := [];
      requests := [];
      sent := [];
      new;
      players.instance := this;
    }

    /** The constructor's argument checks, in order; `urlParses` is the verdict of the URL parser. */
    static method Create(url: string, pass: string, userID: UserId, clientName: string, urlParses: bool)
      returns (r: Result<Instance, Failure>)
      ensures Missing(url) ==> r == Err(NoUrl)
      ensures !Missing(url) && Missing(userID) ==> r == Err(NoUserId)
      ensures !Missing(url) && !Missing(userID) && !urlParses ==> r == Err(InvalidUrl)
      ensures !Missing(url) && !Missing(userID) && urlParses ==> (
        r.Ok? && fresh(r.value) && r.value.Valid()
        && r.value.url == url && r.value.pass == pass && r.value.userID == userID && r.value.clientName == clientName
        && !r.value.ready && r.value.sessionID == None && r.value.Voice() == VoiceModel.NoVoice && r.value.stats == InitialStats
        && fresh(r.value.players) && r.value.players.players == map[]
        && r.value.gate == Pending && r.value.sockets == [] && r.value.requests == [] && r.value.sent == [])
    {
      if Missing(url) {
        return Err(NoUrl);
      }
      if Missing(userID) {
        return Err(NoUserId);
      }
      if !urlParses {
        return Err(InvalidUrl);
      }
      var inst := new Instance(url, pass, userID, clientName);
      r := Ok(inst);
    }

    /**
     * `connect`: refuse when ready; otherwise probe `/version` (its `lavalink-api-version` header is
     * the input), refuse anything but "4", open the stream and wait on the ready gate.
     */
    method Connect(versionHeader: Option<string>) returns (outcome: ConnectOutcome)
      modifies this`requests, this`sockets
      ensures old(ready) ==> outcome == ConnectFailed(AlreadyConnected) && requests == old(requests) && sockets == old(sockets)
      ensures !old(ready) ==> requests == old(requests) + [GetVersion]
      ensures !old(ready) && versionHeader != Some("4") ==> (
        outcome == ConnectFailed(InvalidApiVersion(versionHeader)) && sockets == old(sockets))
      ensures !old(ready) && versionHeader == Some("4") ==> (
        sockets == old(sockets) + [SocketUrl(url)]
        && outcome == match gate { case Pending => Waiting case Resolved => Connected case Rejected => ConnectFailed(SocketFailed) })
    {
      if ready {
        return ConnectFailed(AlreadyConnected);
      }
      requests := requests + [GetVersion];
      if versionHeader != Some("4") {
        return ConnectFailed(InvalidApiVersion(versionHeader));
      }
      sockets := sockets + [SocketUrl(url)];
      match gate {
        case Pending => outcome := Waiting;
        case Resolved => outcome := Connected;
        case Rejected => outcome := ConnectFailed(SocketFailed);
      }
    }

    /** The stream's `error` handler: not ready any more, and a still pending gate is rejected. */
    method OnSocketError()
      modifies this`ready, this`gate
      ensures !ready && gate == (if old(gate) == Pending then Rejected else old(gate))
    {
      ready := false;
      if gate == Pending {
        gate := Rejected;
      }
    }

    /** The stream's `close` handler: not ready any more. */
    method OnSocketClose()
      modifies this`ready
      ensures !ready
    {
      ready := false;
    }

    /** `join`: drop both voice halves of the guild and send a gateway opcode-4 packet. */
    method Join(guildID: GuildId, channelID: Option<ChannelId> := None, deaf: bool := false, mute: bool := false)
      returns (r: Result<(), Failure>)
      requires Valid()
      modifies this`voiceStates, this`serverState, this`sent
      ensures Valid()
      ensures Missing(guildID) ==> r == Err(NoGuildId) && Voice() == old(Voice()) && sent == old(sent)
      ensures !Missing(guildID) ==> (
        r == Ok(())
        && Voice() == VoiceModel.ClearHalves(old(Voice()), guildID)
        && sent == old(sent) + [Outbound(guildID, GatewayPacket(VoiceStateUpdateOp, guildID, channelID, deaf, mute))])
    {
      if Missing(guildID) {
        return Err(NoGuildId);
      }
      if MapGet(guildChannels, guildID) != Some(channelID) {
        voiceStates := voiceStates - {guildID};
        serverState := serverState - {guildID};
      }
      sent := sent + [Outbound(guildID, GatewayPacket(VoiceStateUpdateOp, guildID, channelID, deaf, mute))];
      r := Ok(());
    }

    /** The registry is as before and no player object changed. */
    twostate predicate PlayersUnchanged()
      reads this, players, players.players.Values
    {
      && players.players == old(players.players)
      && forall g :: g in players.players ==> players.players[g].View() == old(players.players[g].View())
    }

    /**
     * The registry after handing guild g's player something: g's player is the old one or a fresh
     * one stored under g, and every other guild keeps its player object, untouched.
     */
    twostate predicate TouchedOnly(g: GuildId)
      reads this, players, players.players.Values
    {
      && g in players.players
      && (g in old(players.players) ==> players.players == old(players.players))
      && (g !in old(players.players) ==> players.players == old(players.players)[g := players.players[g]] && fresh(players.players[g]))
      && forall h :: h in old(players.players) && h != g ==> players.players[h].View() == old(players.players[h].View())
    }

    /** The view guild g's player had before the call: its own, or that of the player `get` would create. */
    twostate function OldView(g: GuildId): PlayerModel.PlayerView
      reads this, players
    {
      if g in old(players.players) then old(players.players[g].View()) else PlayerModel.Fresh
    }

    /** `#handlePlayerEvent`: forward a message to the guild's player, creating it if need be. */
    method HandlePlayerEvent(guildID: GuildId, message: WsMessage, now: int) returns (r: Result<(), Failure>)
      requires Valid()
      modifies players`players, players.players.Values
      ensures Valid()
      ensures Missing(guildID) ==> r == Err(NoGuildId) && PlayersUnchanged()
      ensures !Missing(guildID) ==> (
        r == Ok(()) && TouchedOnly(guildID)
        && players.players[guildID].View() == PlayerModel.Handle(OldView(guildID), message, now))
    {
      if Missing(guildID) {
        return Err(NoGuildId);
      }
      var p := players.Get(guildID);
      p.HandleWSMessage(message, now);
      r := Ok(());
    }

    /** `handleWSMessage`: dispatch one inbound message on its `op`. */
    method HandleWSMessage(message: WsMessage, now: int)
      requires Valid()
      modifies this`ready, this`gate, this`sessionID, this`stats, players`players, players.players.Values
      ensures Valid()
      ensures message.Ready? ==> (
        ready && sessionID == Some(message.sessionId)
        && gate == (if old(gate) == Pending then Resolved else old(gate))
        && stats == old(stats) && PlayersUnchanged())
      ensures message.Stats? ==> (
        stats == StatsSnapshot(message.fields, now)
        && ready == old(ready) && sessionID == old(sessionID) && gate == old(gate) && PlayersUnchanged())
      ensures message.PlayerUpdate? || message.Event? ==> (
        ready == old(ready) && sessionID == old(sessionID) && gate == old(gate) && stats == old(stats))
      ensures (message.PlayerUpdate? || message.Event?) && Missing(message.guildId) ==> PlayersUnchanged()
      ensures (message.PlayerUpdate? || message.Event?) && !Missing(message.guildId) ==> (
        TouchedOnly(message.guildId)
        && players.players[message.guildId].View() == PlayerModel.Handle(OldView(message.guildId), message, now))
      ensures message.UnknownOp? ==> (
        ready == old(ready) && sessionID == old(sessionID) && gate == old(gate) && stats == old(stats) && PlayersUnchanged())
    {
      match message {
        case Ready(sid) =>
          ready := true;
          if gate == Pending {
            gate := Resolved;
          }
          sessionID := Some(sid);
        case Stats(fields) =>
          stats := fields;
          stats := stats["lastUpdated" := JNumber(now)];
          stats := stats - {"op"};
        case PlayerUpdate(guild, _) =>
          if Missing(guild) {
            return;
          }
          var _ := HandlePlayerEvent(guild, message, now);
        case Event(guild, _) =>
          if Missing(guild) {
            return;
          }
          var _ := HandlePlayerEvent(guild, message, now);
        case UnknownOp(_) =>
      }
    }
    /** `#newPlayerData`: hand the backend's player data to the guild's player, creating it if need be. */
    method NewPlayerData(guildID: GuildId, d: PlayerData) returns (r: Result<(), Failure>)
      requires Valid()
      modifies players`players, players.players.Values
      ensures Valid()
      ensures Missing(guildID) ==> r == Err(NoGuildId) && PlayersUnchanged()
      ensures !Missing(guildID) ==> (
        r == Ok(()) && TouchedOnly(guildID)
        && players.players[guildID].View() == OldView(guildID).(data := d))
    {
      if Missing(guildID) {
        return Err(NoGuildId);
      }
      var p := players.Get(guildID);
      p.HandleNewData(d);
      r := Ok(());
    }

    /**
     * `updatePlayer`: refuse without sending anything when the guild id, the server half or the
     * state half is missing; otherwise cancel the debounce timer, send the merged PATCH and, on
     * success, replace the guild's player data with the response.
     */
    method UpdatePlayer(guildID: GuildId, options: map<string, Json>, response: Response<PlayerData>)
      returns (r: Result<PlayerData, Failure>)
      requires Valid()
      modifies this`requests, this`pending, players`players, players.players.Values
      ensures Valid()
      ensures VoiceModel.UpdateBlocker(old(Voice()), guildID).Some? ==> (
        r == Err(VoiceModel.UpdateBlocker(old(Voice()), guildID).value)
        && requests == old(requests) && pending == old(pending) && PlayersUnchanged())
      ensures VoiceModel.UpdateBlocker(old(Voice()), guildID).None? ==> (
        var call := BuildUpdate(options, serverState[guildID], voiceStates[guildID]);
        var req := PatchPlayer(sessionID, guildID, call.query, call.body);
        && requests == old(requests) + [req]
        && call.body.voice == VoiceModel.MergedVoice(old(Voice()), guildID)
        && pending == None
        && r == Settle(req, response)
        && (response.HttpFailure? ==> PlayersUnchanged())
        && (response.Success? ==>
              TouchedOnly(guildID) && players.players[guildID].View() == OldView(guildID).(data := response.body)))
    {
      if Missing(guildID) {
        return Err(NoGuildId);
      }
      if guildID !in serverState {
        return Err(NoVoiceServerUpdate);
      }
      if guildID !in voiceStates {
        return Err(NoVoiceStateUpdate);
      }
      var call := BuildUpdate(options, serverState[guildID], voiceStates[guildID]);
      pending := None;
      var req := PatchPlayer(sessionID, guildID, call.query, call.body);
      requests := requests + [req];
      match response {
        case HttpFailure(status, statusText, text) =>
          r := Err(RequestFailed(req, status, statusText, text));
        case Success(body) =>
          var _ := NewPlayerData(guildID, body);
          r := Ok(body);
      }
    }

    /**
     * `destroyPlayer`: send the DELETE; on failure throw and change nothing else; on success
     * forget the guild's player and `join` it with no channel, which drops both voice halves.
     */
    method DestroyPlayer(guildID: GuildId, response: Response<()>) returns (r: Result<(), Failure>)
      requires Valid()
      modifies this`requests, this`serverState, this`voiceStates, this`sent, players`players
      ensures Valid()
      ensures Missing(guildID) ==> (
        r == Err(NoGuildId) && requests == old(requests)
        && players.players == old(players.players) && Voice() == old(Voice()) && sent == old(sent))
      ensures !Missing(guildID) ==> (
        requests == old(requests) + [DeletePlayer(sessionID, guildID)]
        && r == Settle(DeletePlayer(sessionID, guildID), response))
      ensures !Missing(guildID) && response.HttpFailure? ==> (
        players.players == old(players.players) && Voice() == old(Voice()) && sent == old(sent))
      ensures !Missing(guildID) && response.Success? ==> (
        players.players == old(players.players) - {guildID}
        && Voice() == VoiceModel.ClearHalves(old(Voice()), guildID)
        && sent == old(sent) + [Outbound(guildID, GatewayPacket(VoiceStateUpdateOp, guildID, None, false, false))])
    {
      if Missing(guildID) {
        return Err(NoGuildId);
      }
      var req := DeletePlayer(sessionID, guildID);
      requests := requests + [req];
      r := Settle(req, response);
      if r.Err? {
        return;
      }
      players.Delete(guildID);
      var _ := Join(guildID);
    }

    /** `loadTrack`: refuse an empty identifier, otherwise send the search. */
    method LoadTrack(identifier: string, response: Response<Json>) returns (r: Result<Json, Failure>)
      modifies this`requests
      ensures Missing(identifier) ==> r == Err(NoIdentifier) && requests == old(requests)
      ensures !Missing(identifier) ==> (
        requests == old(requests) + [GetLoadTracks(identifier)] && r == Settle(GetLoadTracks(identifier), response))
    {
      if Missing(identifier) {
        return Err(NoIdentifier);
      }
      requests := requests + [GetLoadTracks(identifier)];
      r := Settle(GetLoadTracks(identifier), response);
    }

    /** `decodeTracks`: refuse anything but a non-empty array before sending, otherwise send the batch. */
    method DecodeTracks(tracks: Json, response: Response<Json>) returns (r: Result<Json, Failure>)
      modifies this`requests
      ensures TracksInput(tracks).Err? ==> r == Err(TracksInput(tracks).error) && requests == old(requests)
      ensures TracksInput(tracks).Ok? ==> (
        requests == old(requests) + [PostDecodeTracks(tracks.items)] && r == Settle(PostDecodeTracks(tracks.items), response))
    {
      var input := TracksInput(tracks);
      if input.Err? {
        return Err(input.error);
      }
      requests := requests + [PostDecodeTracks(input.value)];
      r := Settle(PostDecodeTracks(input.value), response);
    }

    /** `decodeTrack`: refuse an empty track, otherwise send the single decode. */
    method DecodeTrack(track: string, response: Response<Json>) returns (r: Result<Json, Failure>)
      modifies this`requests
      ensures Missing(track) ==> r == Err(NoTrack) && requests == old(requests)
      ensures !Missing(track) ==> (
        requests == old(requests) + [GetDecodeTrack(track)] && r == Settle(GetDecodeTrack(track), response))
    {
      if Missing(track) {
        return Err(NoTrack);
      }
      requests := requests + [GetDecodeTrack(track)];
      r := Settle(GetDecodeTrack(track), response);
    }

    /** `fetchStats`: send the stats request. */
    method FetchStats(response: Response<Json>) returns (r: Result<Json, Failure>)
      modifies this`requests
      ensures requests == old(requests) + [GetStats] && r == Settle(GetStats, response)
    {
      requests := requests + [GetStats];
      r := Settle(GetStats, response);
    }

    /** `#newVoiceStateData`: (re-)arm the single debounce timer for the guild, cancelling any other. */
    method NewVoiceStateData(guildID: GuildId) returns (r: Result<(), Failure>)
      modifies this`pending
      ensures Missing(guildID) ==> r == Err(NoGuildId) && pending == old(pending)
      ensures !Missing(guildID) ==> r == Ok(()) && pending == Some(guildID)
    {
      if Missing(guildID) {
        return Err(NoGuildId);
      }
      pending := Some(guildID);
      r := Ok(());
    }

    /** `voiceServerUpdate`: store the server half of a guild and re-arm the timer for it. */
    method VoiceServerUpdate(d: VoiceServerPayload)
      requires Valid()
      modifies this`serverState, this`pending
      ensures Valid()
      ensures Voice() == VoiceModel.OnServer(old(Voice()), d)
    {
      if Missing(d.guildId) {
        return;
      }
      serverState := serverState[d.guildId := d];
      var _ := NewVoiceStateData(d.guildId);
    }

    /** `voiceStateUpdate`: ignore other users and guildless updates; store the client's own state half and re-arm. */
    method VoiceStateUpdate(d: VoiceStatePayload)
      requires Valid()
      modifies this`voiceStates, this`pending
      ensures Valid()
      ensures Voice() == VoiceModel.OnState(old(Voice()), userID, d)
    {
      if d.userId != userID {
        return;
      }
      if Missing(d.guildId) {
        return;
      }
      voiceStates := voiceStates[d.guildId := d];
      var _ := NewVoiceStateData(d.guildId);
    }

    /**
     * The debounce timer expires: it is spent, and the armed guild's player is updated with
     * empty options exactly when both halves of that guild are stored; otherwise nothing is sent.
     */
    method FireTimer(response: Response<PlayerData>) returns (r: Option<Result<PlayerData, Failure>>)
      requires Valid()
      modifies this`requests, this`pending, players`players, players.players.Values
      ensures Valid()
      ensures pending == None
      ensures VoiceModel.FireTarget(old(Voice())).None? ==> (
        r == None && requests == old(requests) && PlayersUnchanged())
      ensures VoiceModel.FireTarget(old(Voice())).Some? ==> (
        var g := VoiceModel.FireTarget(old(Voice())).value;
        var req := PatchPlayer(sessionID, g, "", UpdateBody(map[], VoiceModel.MergedVoice(old(Voice()), g)));
        && requests == old(requests) + [req]
        && r == Some(Settle(req, response))
        && (response.HttpFailure? ==> PlayersUnchanged())
        && (response.Success? ==> TouchedOnly(g) && players.players[g].View() == OldView(g).(data := response.body)))
    {
      if pending.None? {
        return None;
      }
      var g := pending.value;
      pending := None;
      if g in voiceStates && g in serverState {
        var res := UpdatePlayer(g, map[], response);
        r := Some(res);
      } else {
        r := None;
      }
    }
  }

  /** After a successful destroy, `get` builds a new player; the old object reports itself destroyed. */
  method DestroyThenGet(inst: Instance, g: GuildId, response: Response<()>) returns (before: Player, after: Player)
    requires inst.Valid() && !Missing(g) && response.Success?
    modifies inst`requests, inst`serverState, inst`voiceStates, inst`sent, inst.players`players
    ensures inst.Valid()
    ensures before != after && fresh(after) && after.View() == PlayerModel.Fresh
    ensures before.IsDestroyed() && !after.IsDestroyed()
  {
    before := inst.players.Get(g);
    var r := inst.players.Destroy(g, response);
    after := inst.players.Get(g);
  }

  /**
   * The guild's voice server and then the client's own voice state arrive (any order
   * is covered by VoiceModel.MergedUpdateAfterBothHalves): when the timer fires, exactly one
   * merged update-player request is sent and no timer remains armed.
   */
  method ServerThenStateThenFire(inst: Instance, server: VoiceServerPayload, state: VoiceStatePayload, response: Response<PlayerData>)
    returns (r: Option<Result<PlayerData, Failure>>)
    requires inst.Valid() && !Missing(server.guildId)
    requires state.guildId == server.guildId && state.userId == inst.userID
    modifies inst`serverState, inst`voiceStates, inst`requests, inst`pending, inst.players`players, inst.players.players.Values
    ensures inst.Valid() && inst.pending == None
    ensures inst.requests == old(inst.requests) + [PatchPlayer(inst.sessionID, server.guildId, "",
              UpdateBody(map[], VoiceBody(server.token, server.endpoint, state.sessionId)))]
    ensures r.Some? && (response.Success? <==> r.value.Ok?)
  {
    inst.VoiceServerUpdate(server);
    inst.VoiceStateUpdate(state);
    r := inst.FireTimer(response);
  }
}
