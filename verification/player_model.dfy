/**
 * What one inbound message does to a player: the reference semantics that the
 * `Player.HandleWSMessage` method of module Lavalink is proved to follow, and the
 * properties of whole message streams (wholesale replacement of the transport
 * snapshot, in-order, at-most-once emissions).
 */
module PlayerModel {
  import opened Wrappers
  import opened Protocol

  /** Everything a player's inbound messages can change, with its emission log. */
  datatype PlayerView = PlayerView(state: PlayerState, data: PlayerData, lastError: Option<LastError>, emitted: seq<Emission>)

  /** A message together with the wall-clock time at which it is handled. */
  datatype Delivery = Delivery(message: WsMessage, now: int)

  /** The view of a newly constructed player. */
  const Fresh: PlayerView := PlayerView(InitialState, InitialData, None, [])

  /** Whether two data snapshots agree on everything but the track: volume, pause and filters. */
  predicate SameSettings(a: PlayerData, b: PlayerData)
  {
    a.volume == b.volume && a.paused == b.paused && a.filters == b.filters
  }

  /** The player's reaction to one inbound message handled at time `now`. */
  function Handle(v: PlayerView, m: WsMessage, now: int): (r: PlayerView)
    // emissions are appended, at most one per message
    ensures v.emitted <= r.emitted && |r.emitted| <= |v.emitted| + 1
    // only a playerUpdate touches the transport snapshot, and it replaces it wholesale
    ensures m.PlayerUpdate? ==> r == v.(state := m.state)
    ensures !m.PlayerUpdate? ==> r.state == v.state
    // no inbound message changes volume, pause or filters
    ensures SameSettings(r.data, v.data)
    // lastError only ever becomes the message itself
    ensures r.lastError == v.lastError || (r.lastError.Some? && r.lastError.value.message == m)
    // ops other than playerUpdate and event are ignored
    ensures !m.PlayerUpdate? && !m.Event? ==> r == v
  {
    match m
    case PlayerUpdate(_, st) => v.(state := st)
    case Event(_, ev) =>
      (match ev
       case TrackStartEvent(t) =>
         v.(data := v.data.(track := Some(t)), emitted := v.emitted + [Start(t)])
       case TrackEndEvent(t, reason) =>
         v.(data := v.data.(track := None), emitted := v.emitted + [End(t, reason)])
       case TrackExceptionEvent(_, _) =>
         v.(lastError := Some(LastError(m, Some(now))), emitted := v.emitted + [Error(m)])
       case TrackStuckEvent(_, _) =>
         v.(lastError := Some(LastError(m, None)), emitted := v.emitted + [Stuck(m)])
       case WebSocketClosedEvent(_, _, _) =>
         v.(emitted := v.emitted + [WsClosed(m)])
       case UnknownEvent(_) => v)
    case _ => v
  }

  /**
   * What each event type does: start sets the track and emits `start`; end clears it and emits
   * `end`; an exception becomes the last error stamped with the receipt time and emits `error`;
   * a stuck track becomes the last error and emits `stuck`; a closed voice socket only emits
   * `wsClosed`; an unknown type changes nothing and emits nothing.
   */
  lemma TrackEventEffects(v: PlayerView, g: GuildId, ev: TrackEvent, now: int)
    ensures var m := Event(g, ev); var r := Handle(v, m, now);
      && (ev.TrackStartEvent? ==> r == v.(data := v.data.(track := Some(ev.track)), emitted := v.emitted + [Start(ev.track)]))
      && (ev.TrackEndEvent? ==> r == v.(data := v.data.(track := None), emitted := v.emitted + [End(ev.track, ev.reason)]))
      && (ev.TrackExceptionEvent? ==> r == v.(lastError := Some(LastError(m, Some(now))), emitted := v.emitted + [Error(m)]))
      && (ev.TrackStuckEvent? ==> r == v.(lastError := Some(LastError(m, None)), emitted := v.emitted + [Stuck(m)]))
      && (ev.WebSocketClosedEvent? ==> r == v.(emitted := v.emitted + [WsClosed(m)]))
      && (ev.UnknownEvent? ==> r == v)
  {
  }

  /** The view after handling a stream of deliveries in arrival order. */
  function Replay(v: PlayerView, ds: seq<Delivery>): PlayerView
    decreases |ds|
  {
    if ds == [] then v else Replay(Handle(v, ds[0].message, ds[0].now), ds[1..])
  }

  lemma {:induction false} ReplayAppend(v: PlayerView, ds: seq<Delivery>, d: Delivery)
    ensures Replay(v, ds + [d]) == Handle(Replay(v, ds), d.message, d.now)
    decreases |ds|
  {
    if ds == [] {
      assert [d][1..] == [];
    } else {
      assert (ds + [d])[1..] == ds[1..] + [d];
      ReplayAppend(Handle(v, ds[0].message, ds[0].now), ds[1..], d);
    }
  }

  /** The state carried by the last playerUpdate of a stream, or `s` if there is none. */
  function LastReport(s: PlayerState, ds: seq<Delivery>): PlayerState
    decreases |ds|
  {
    if ds == [] then s
    else if ds[|ds| - 1].message.PlayerUpdate? then ds[|ds| - 1].message.state
    else LastReport(s, ds[..|ds| - 1])
  }

  /** The track left by the last TrackStart (that track) or TrackEnd (none) of a stream, or `t`. */
  function LastTrack(t: Option<Track>, ds: seq<Delivery>): Option<Track>
    decreases |ds|
  {
    if ds == [] then t
    else
      var m := ds[|ds| - 1].message;
      if m.Event? && m.event.TrackStartEvent? then Some(m.event.track)
      else if m.Event? && m.event.TrackEndEvent? then None
      else LastTrack(t, ds[..|ds| - 1])
  }

  /** The transport snapshot is replaced wholesale, never merged: after any stream it is the last report. */
  lemma {:induction false} ReplayStateIsLastReport(v: PlayerView, ds: seq<Delivery>)
    ensures Replay(v, ds).state == LastReport(v.state, ds)
    decreases |ds|
  {
    if ds != [] {
      var init, d := ds[..|ds| - 1], ds[|ds| - 1];
      assert ds == init + [d];
      ReplayAppend(v, init, d);
      ReplayStateIsLastReport(v, init);
    }
  }

  /** The cached track after any stream is decided by the last start or end event alone. */
  lemma {:induction false} ReplayTrackIsLastTrackEvent(v: PlayerView, ds: seq<Delivery>)
    ensures Replay(v, ds).data.track == LastTrack(v.data.track, ds)
    decreases |ds|
  {
    if ds != [] {
      var init, d := ds[..|ds| - 1], ds[|ds| - 1];
      assert ds == init + [d];
      ReplayAppend(v, init, d);
      ReplayTrackIsLastTrackEvent(v, init);
    }
  }

  /** Inbound messages never change volume, pause or filters, and emit at most once each, in order. */
  lemma {:induction false} ReplayKeepsSettingsAndAppendsEmissions(v: PlayerView, ds: seq<Delivery>)
    ensures SameSettings(Replay(v, ds).data, v.data)
    ensures v.emitted <= Replay(v, ds).emitted
    ensures |Replay(v, ds).emitted| <= |v.emitted| + |ds|
    decreases |ds|
  {
    if ds != [] {
      var w := Handle(v, ds[0].message, ds[0].now);
      ReplayKeepsSettingsAndAppendsEmissions(w, ds[1..]);
    }
  }

  /** A TrackStartEvent then a TrackEndEvent leave no track and emit `start` then `end`, once each. */
  lemma StartThenEnd(v: PlayerView, g: GuildId, t: Track, t': Track, reason: string, n1: int, n2: int)
    ensures var r := Replay(v, [Delivery(Event(g, TrackStartEvent(t)), n1), Delivery(Event(g, TrackEndEvent(t', reason)), n2)]);
      r.data.track == None && r.emitted == v.emitted + [Start(t), End(t', reason)]
      && r.state == v.state && r.lastError == v.lastError
  {
    var d1, d2 := Delivery(Event(g, TrackStartEvent(t)), n1), Delivery(Event(g, TrackEndEvent(t', reason)), n2);
    assert [d1, d2] == [d1] + [d2];
    ReplayAppend(v, [d1], d2);
    ReplayAppend(v, [], d1);
  }
}
