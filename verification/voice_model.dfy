/**
 * The voice coordinator of an instance as a value: the two per-guild half maps and
 * the single debounce slot. `Instance`'s methods in module Lavalink are proved to
 * follow these functions; the lemmas here are about whole streams of gateway events.
 */
module VoiceModel {
  import opened Wrappers
  import opened Protocol

  /**
   * `servers` and `states` are `#serverState` and `#voiceStates`; `pending` is the guild
   * whose debounced update `#voiceUpdateTimeout` will run, if a timer is armed.
   */
  datatype Voice = Voice(servers: map<GuildId, VoiceServerPayload>, states: map<GuildId, VoiceStatePayload>, pending: Option<GuildId>)

  const NoVoice: Voice := Voice(map[], map[], None)

  /** voiceServerUpdate: store the server half and re-arm the one timer for its guild. */
  function OnServer(v: Voice, d: VoiceServerPayload): (r: Voice)
    ensures Missing(d.guildId) ==> r == v
    ensures !Missing(d.guildId) ==>
      r.servers == v.servers[d.guildId := d] && r.states == v.states && r.pending == Some(d.guildId)
  {
    if Missing(d.guildId) then v
    else Voice(v.servers[d.guildId := d], v.states, Some(d.guildId))
  }

  /** voiceStateUpdate: ignore other users' and guildless updates; otherwise store the state half and re-arm. */
  function OnState(v: Voice, self: UserId, d: VoiceStatePayload): (r: Voice)
    ensures d.userId != self || Missing(d.guildId) ==> r == v
    ensures d.userId == self && !Missing(d.guildId) ==>
      r.states == v.states[d.guildId := d] && r.servers == v.servers && r.pending == Some(d.guildId)
  {
    if d.userId != self then v
    else if Missing(d.guildId) then v
    else Voice(v.servers, v.states[d.guildId := d], Some(d.guildId))
  }

  /** join: both halves of the guild are dropped; the pending timer is left alone. */
  function ClearHalves(v: Voice, g: GuildId): (r: Voice)
    ensures g !in r.servers && g !in r.states && r.pending == v.pending
    ensures forall h :: h != g ==> (h in r.servers <==> h in v.servers) && (h in r.states <==> h in v.states)
    ensures forall h :: h in r.servers ==> r.servers[h] == v.servers[h]
    ensures forall h :: h in r.states ==> r.states[h] == v.states[h]
  {
    Voice(v.servers - {g}, v.states - {g}, v.pending)
  }

  /** The guild whose player a firing timer updates: the armed guild, if both its halves are stored. */
  function FireTarget(v: Voice): (r: Option<GuildId>)
    ensures r.Some? <==> v.pending.Some? && v.pending.value in v.servers && v.pending.value in v.states
    ensures r.Some? ==> r == v.pending
  {
    match v.pending
    case Some(g) => if g in v.states && g in v.servers then Some(g) else None
    case None => None
  }

  /** The `voice` object merged from both halves of a guild. */
  function MergedVoice(v: Voice, g: GuildId): VoiceBody
    requires g in v.servers && g in v.states
  {
    VoiceBody(v.servers[g].token, v.servers[g].endpoint, v.states[g].sessionId)
  }

  /** The error `updatePlayer` throws before sending anything, checked in the source's order, if any. */
  function UpdateBlocker(v: Voice, g: GuildId): (r: Option<Failure>)
    ensures r.None? <==> !Missing(g) && g in v.servers && g in v.states
    ensures Missing(g) ==> r == Some(NoGuildId)
    ensures !Missing(g) && g !in v.servers ==> r == Some(NoVoiceServerUpdate)
    ensures !Missing(g) && g in v.servers && g !in v.states ==> r == Some(NoVoiceStateUpdate)
  {
    if Missing(g) then Some(NoGuildId)
    else if g !in v.servers then Some(NoVoiceServerUpdate)
    else if g !in v.states then Some(NoVoiceStateUpdate)
    else None
  }

  /** A gateway-side input of the coordinator: one of the two halves, or a join of a guild. */
  datatype GatewayEvent = ServerEvent(server: VoiceServerPayload) | StateEvent(state: VoiceStatePayload) | JoinEvent(guildId: GuildId)

  function Apply(v: Voice, self: UserId, e: GatewayEvent): Voice
  {
    match e
    case ServerEvent(d) => OnServer(v, d)
    case StateEvent(d) => OnState(v, self, d)
    case JoinEvent(g) => if Missing(g) then v else ClearHalves(v, g)
  }

  function Replay(v: Voice, self: UserId, es: seq<GatewayEvent>): Voice
    decreases |es|
  {
    if es == [] then v else Replay(Apply(v, self, es[0]), self, es[1..])
  }

  lemma {:induction false} ReplayAppend(v: Voice, self: UserId, es: seq<GatewayEvent>, e: GatewayEvent)
    ensures Replay(v, self, es + [e]) == Apply(Replay(v, self, es), self, e)
    decreases |es|
  {
    if es == [] {
      assert [e][1..] == [];
    } else {
      assert (es + [e])[1..] == es[1..] + [e];
      ReplayAppend(Apply(v, self, es[0]), self, es[1..], e);
    }
  }

  /** The guild an event arms the timer for, if it arms it at all. */
  function Arms(self: UserId, e: GatewayEvent): Option<GuildId>
  {
    match e
    case ServerEvent(d) => if Missing(d.guildId) then None else Some(d.guildId)
    case StateEvent(d) => if d.userId != self || Missing(d.guildId) then None else Some(d.guildId)
    case JoinEvent(_) => None
  }

  /** The guild armed by the last arming event of a stream, or `p` if no event arms. */
  function LastArmed(p: Option<GuildId>, self: UserId, es: seq<GatewayEvent>): Option<GuildId>
    decreases |es|
  {
    if es == [] then p
    else if Arms(self, es[|es| - 1]).Some? then Arms(self, es[|es| - 1])
    else LastArmed(p, self, es[..|es| - 1])
  }

  /** There is one debounce slot for all guilds: the pending guild is the one armed last, any earlier one is cancelled. */
  lemma {:induction false} PendingIsLastArmed(v: Voice, self: UserId, es: seq<GatewayEvent>)
    ensures Replay(v, self, es).pending == LastArmed(v.pending, self, es)
    decreases |es|
  {
    if es != [] {
      var init, e := es[..|es| - 1], es[|es| - 1];
      assert es == init + [e];
      ReplayAppend(v, self, init, e);
      PendingIsLastArmed(v, self, init);
    }
  }

  predicate IsServerFor(g: GuildId, e: GatewayEvent) { e.ServerEvent? && e.server.guildId == g }
  predicate IsOwnStateFor(self: UserId, g: GuildId, e: GatewayEvent) { e.StateEvent? && e.state.guildId == g && e.state.userId == self }

  /** Without a join of g, the last server half stored for g is that of the last server event for g. */
  lemma {:induction false} LastServerWins(v: Voice, self: UserId, g: GuildId, es: seq<GatewayEvent>, i: nat)
    requires !Missing(g) && i < |es| && IsServerFor(g, es[i])
    requires forall k :: i < k < |es| ==> !IsServerFor(g, es[k]) && es[k] != JoinEvent(g)
    ensures g in Replay(v, self, es).servers && Replay(v, self, es).servers[g] == es[i].server
    decreases |es|
  {
    var init, e := es[..|es| - 1], es[|es| - 1];
    assert es == init + [e];
    ReplayAppend(v, self, init, e);
    if i < |es| - 1 {
      LastServerWins(v, self, g, init, i);
    }
  }

  /** Without a join of g, the last state half stored for g is that of the client's own last state event for g. */
  lemma {:induction false} LastStateWins(v: Voice, self: UserId, g: GuildId, es: seq<GatewayEvent>, j: nat)
    requires !Missing(g) && j < |es| && IsOwnStateFor(self, g, es[j])
    requires forall k :: j < k < |es| ==> !IsOwnStateFor(self, g, es[k]) && es[k] != JoinEvent(g)
    ensures g in Replay(v, self, es).states && Replay(v, self, es).states[g] == es[j].state
    decreases |es|
  {
    var init, e := es[..|es| - 1], es[|es| - 1];
    assert es == init + [e];
    ReplayAppend(v, self, init, e);
    if j < |es| - 1 {
      LastStateWins(v, self, g, init, j);
    }
  }

  /**
   * Both halves arriving for a guild, in either order and any number of times, and nothing
   * else arriving after them: the timer fires for that guild, with the voice object made of
   * the last server half's token and endpoint and the last state half's session id.
   */
  lemma MergedUpdateAfterBothHalves(v: Voice, self: UserId, g: GuildId, es: seq<GatewayEvent>, i: nat, j: nat)
    requires !Missing(g) && i < |es| && j < |es|
    requires forall k :: 0 <= k < |es| ==> IsServerFor(g, es[k]) || IsOwnStateFor(self, g, es[k])
    requires IsServerFor(g, es[i]) && forall k :: i < k < |es| ==> !IsServerFor(g, es[k])
    requires IsOwnStateFor(self, g, es[j]) && forall k :: j < k < |es| ==> !IsOwnStateFor(self, g, es[k])
    ensures var r := Replay(v, self, es);
      FireTarget(r) == Some(g)
      && MergedVoice(r, g) == VoiceBody(es[i].server.token, es[i].server.endpoint, es[j].state.sessionId)
  {
    LastServerWins(v, self, g, es, i);
    LastStateWins(v, self, g, es, j);
    PendingIsLastArmed(v, self, es);
    var last := es[|es| - 1];
    assert Arms(self, last) == Some(g);
  }

  /** A guild with no server half keeps none until a server event for it arrives. */
  lemma {:induction false} NoServerWithoutServerEvent(v: Voice, self: UserId, g: GuildId, es: seq<GatewayEvent>)
    requires g !in v.servers
    requires forall k :: 0 <= k < |es| ==> !IsServerFor(g, es[k])
    ensures g !in Replay(v, self, es).servers
    decreases |es|
  {
    if es != [] {
      NoServerWithoutServerEvent(Apply(v, self, es[0]), self, g, es[1..]);
    }
  }

  /** A guild with no state half keeps none until the client's own state event for it arrives. */
  lemma {:induction false} NoStateWithoutOwnStateEvent(v: Voice, self: UserId, g: GuildId, es: seq<GatewayEvent>)
    requires g !in v.states
    requires forall k :: 0 <= k < |es| ==> !IsOwnStateFor(self, g, es[k])
    ensures g !in Replay(v, self, es).states
    decreases |es|
  {
    if es != [] {
      NoStateWithoutOwnStateEvent(Apply(v, self, es[0]), self, g, es[1..]);
    }
  }

  /** Only server halves (or foreign state halves) for a guild never make the timer fire for it. */
  lemma ServerHalfAloneNeverFires(v: Voice, self: UserId, g: GuildId, es: seq<GatewayEvent>)
    requires g !in v.states
    requires forall k :: 0 <= k < |es| ==> !IsOwnStateFor(self, g, es[k])
    ensures FireTarget(Replay(v, self, es)) != Some(g)
  {
    NoStateWithoutOwnStateEvent(v, self, g, es);
  }

  /** A server half stored before a join is never merged with a state half arriving after it. */
  lemma JoinDiscardsEarlierServerHalf(v: Voice, self: UserId, g: GuildId, es: seq<GatewayEvent>)
    requires !Missing(g)
    requires forall k :: 0 <= k < |es| ==> !IsServerFor(g, es[k])
    ensures FireTarget(Replay(v, self, [JoinEvent(g)] + es)) != Some(g)
  {
    assert ([JoinEvent(g)] + es)[1..] == es;
    NoServerWithoutServerEvent(ClearHalves(v, g), self, g, es);
  }
}
