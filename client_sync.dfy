/** How the projector and mobile pages keep their copy of the party: the
    reply of `GET /api/party/<code>` and the three Socket.IO events, each
    merged into the page's `party` state the way the handlers in
    ProjectorView.jsx and MobileView.jsx do it. */
module ClientSync {
  import opened Wrappers
  import opened PartyData

  /** One value of the JSON party object a page holds. */
  datatype Field =
    | Text(text: string)
    | Songs(queue: seq<Song>)
    | Track(track: Option<TrackInfo>)
    | Members(members: seq<Member>)

  /** A JSON object, keyed by property name. */
  type Obj = map<string, Field>

  /** The page's `party` state: `null` until something arrives. */
  type View = Option<Obj>

  /** The JSON object `jsonify(party)` sends for a party record. */
  function Snapshot(p: Party): (o: Obj)
    ensures o.Keys == {"code", "host", "created_at", "queue", "current_song", "members", "qr_code"}
    ensures o["code"] == Text(p.code) && o["host"] == Text(p.host)
    ensures o["created_at"] == Text(p.createdAt) && o["qr_code"] == Text(p.qrCode)
    ensures o["queue"] == Songs(p.queue) && o["current_song"] == Track(p.currentSong)
    ensures o["members"] == Members(p.members)
  {
    map["code" := Text(p.code), "host" := Text(p.host), "created_at" := Text(p.createdAt),
        "queue" := Songs(p.queue), "current_song" := Track(p.currentSong),
        "members" := Members(p.members), "qr_code" := Text(p.qrCode)]
  }

  /** Two parties have the same snapshot only if they are the same party. */
  lemma SnapshotInjective(p: Party, p': Party)
    requires Snapshot(p) == Snapshot(p')
    ensures p == p'
  {
    assert Snapshot(p)["code"] == Snapshot(p')["code"];
    assert Snapshot(p)["host"] == Snapshot(p')["host"];
    assert Snapshot(p)["created_at"] == Snapshot(p')["created_at"];
    assert Snapshot(p)["queue"] == Snapshot(p')["queue"];
    assert Snapshot(p)["current_song"] == Snapshot(p')["current_song"];
    assert Snapshot(p)["members"] == Snapshot(p')["members"];
    assert Snapshot(p)["qr_code"] == Snapshot(p')["qr_code"];
  }

  /** `{ ...prev, [key]: value }`; spreading `null` contributes nothing. */
  function SetField(prev: View, key: string, value: Field): (r: View)
    ensures r.Some?
    ensures r.value.Keys == prev.GetOr(map[]).Keys + {key}
    ensures r.value[key] == value
    ensures forall k :: k in prev.GetOr(map[]) && k != key ==> r.value[k] == prev.GetOr(map[])[k]
  {
    Some(prev.GetOr(map[])[key := value])
  }

  /** The `queue_updated` handler: `setParty(prev => ({ ...prev, queue }))`. */
  function OnQueueUpdated(prev: View, queue: seq<Song>): View {
    SetField(prev, "queue", Songs(queue))
  }

  /** The `playback_updated` handler: `({ ...prev, current_song: currentSong })`. */
  function OnPlaybackUpdated(prev: View, song: Option<TrackInfo>): View {
    SetField(prev, "current_song", Track(song))
  }

  /** The `party_updated` handler: the payload replaces the state. */
  function OnPartyUpdated(prev: View, p: Party): View {
    Some(Snapshot(p))
  }

  /** `loadPartyData`: a successful reply replaces the state, a failed one is
      only logged. */
  function OnLoaded(prev: View, reply: Result<Party, Failure>): (r: View)
    ensures reply.Success? ==> r == Some(Snapshot(reply.value))
    ensures reply.Failure? ==> r == prev
  {
    match reply
    case Success(p) => Some(Snapshot(p))
    case Failure(_) => prev
  }

  /** The handler an event is delivered to. */
  function Apply(view: View, e: Event): View {
    match e
    case QueueUpdated(_, queue) => OnQueueUpdated(view, queue)
    case PlaybackUpdated(_, song) => OnPlaybackUpdated(view, song)
    case PartyUpdated(_, p) => OnPartyUpdated(view, p)
  }

  /** Events handled in arrival order. */
  function ApplyAll(view: View, es: seq<Event>): View
    decreases |es|
  {
    if es == [] then view else ApplyAll(Apply(view, es[0]), es[1..])
  }

  /** What the server makes of a party through the same events. */
  function EffectAll(p: Party, es: seq<Event>): Party
    decreases |es|
  {
    if es == [] then p else EffectAll(EventEffect(p, es[0]), es[1..])
  }

  /** A page holding the snapshot of a party holds, after one event, the
      snapshot of the party as the event describes it. */
  lemma ApplyMirrorsEffect(p: Party, e: Event)
    ensures Apply(Some(Snapshot(p)), e) == Some(Snapshot(EventEffect(p, e)))
  {
    match e
    case QueueUpdated(_, queue) =>
      assert Snapshot(p)["queue" := Songs(queue)] == Snapshot(p.(queue := queue));
    case PlaybackUpdated(_, song) =>
      assert Snapshot(p)["current_song" := Track(song)] == Snapshot(p.(currentSong := song));
    case PartyUpdated(_, _) =>
  }

  /** ... and so after any sequence of events. */
  lemma {:induction false} ApplyAllMirrorsEffect(p: Party, es: seq<Event>)
    ensures ApplyAll(Some(Snapshot(p)), es) == Some(Snapshot(EffectAll(p, es)))
    decreases |es|
  {
    if es != [] {
      ApplyMirrorsEffect(p, es[0]);
      ApplyAllMirrorsEffect(EventEffect(p, es[0]), es[1..]);
    }
  }

  /** A page that loaded a party and then received the events emitted since
      shows the party those events lead to. */
  lemma LoadThenEvents(prev: View, p: Party, es: seq<Event>)
    ensures ApplyAll(OnLoaded(prev, Success(p)), es) == Some(Snapshot(EffectAll(p, es)))
  {
    ApplyAllMirrorsEffect(p, es);
  }

  /** Before the first load a queue or playback event leaves the page with an
      object holding only that property. */
  lemma EventBeforeLoad(e: Event)
    requires !e.PartyUpdated?
    ensures var r := Apply(None, e);
      r.Some? && r.value.Keys == {if e.QueueUpdated? then "queue" else "current_song"}
  {
  }

  /** A queue or playback event leaves every other property as it was. */
  lemma EventKeepsOtherFields(view: View, e: Event, k: string)
    requires view.Some? && k in view.value && !e.PartyUpdated?
    requires k != (if e.QueueUpdated? then "queue" else "current_song")
    ensures var r := Apply(view, e); r.Some? && k in r.value && r.value[k] == view.value[k]
  {
  }

  /** The properties of a party object: the pages read `host`, `code`,
      `queue`, `current_song` and, on the projector, `members` once the
      loading screen is gone. */
  const PartyKeys: set<string> := {"code", "host", "created_at", "queue", "current_song", "members", "qr_code"}

  /** A state the page can render: `null`, which shows the loading screen, or
      an object that has every property of a party. */
  predicate Renderable(view: View) {
    view.None? || PartyKeys <= view.value.Keys
  }

  /** As written, a queue or playback event that arrives before the first
      load leaves a state that is past the loading screen but lacks the other
      properties, e.g. `members` and `queue` for a playback event, so
      `party.members.length` or `party.queue.length` reads a missing
      property. */
  lemma EarlyEventIsNotRenderable(e: Event)
    requires !e.PartyUpdated?
    ensures Apply(None, e).Some? && !Renderable(Apply(None, e))
    ensures e.QueueUpdated? ==> "members" !in Apply(None, e).value
    ensures e.PlaybackUpdated? ==> "queue" !in Apply(None, e).value && "members" !in Apply(None, e).value
  {
    assert "members" in PartyKeys && "members" !in Apply(None, e).value;
  }

  /** Every event keeps a loaded state renderable. */
  lemma ApplyKeepsLoadedRenderable(view: View, e: Event)
    requires view.Some?
    ensures Renderable(view) ==> Renderable(Apply(view, e))
  {
  }

  /** The handlers as evidently intended: a queue or playback event is only
      merged into a state that holds a party (`prev ? { ...prev, queue } :
      prev`); a party event still replaces the state. */
  function ApplyGuarded(view: View, e: Event): (r: View)
    ensures Renderable(view) ==> Renderable(r)
    ensures view.Some? ==> r == Apply(view, e)
  {
    if view.Some? then
      ApplyKeepsLoadedRenderable(view, e);
      Apply(view, e)
    else if e.PartyUpdated? then Apply(view, e)
    else None
  }

  /** Guarded events handled in arrival order. */
  function ApplyAllGuarded(view: View, es: seq<Event>): View
    decreases |es|
  {
    if es == [] then view else ApplyAllGuarded(ApplyGuarded(view, es[0]), es[1..])
  }

  /** With the guard, every state a page passes through is renderable,
      whatever order the events arrive in. */
  lemma {:induction false} GuardedStaysRenderable(view: View, es: seq<Event>)
    requires Renderable(view)
    ensures Renderable(ApplyAllGuarded(view, es))
    decreases |es|
  {
    if es != [] {
      GuardedStaysRenderable(ApplyGuarded(view, es[0]), es[1..]);
    }
  }

  /** Once a party is held the guard changes nothing, so a loaded page shows
      the same party with or without it. */
  lemma {:induction false} GuardedAgreesWhenLoaded(o: Obj, es: seq<Event>)
    ensures ApplyAllGuarded(Some(o), es) == ApplyAll(Some(o), es)
    decreases |es|
  {
    if es != [] {
      GuardedAgreesWhenLoaded(Apply(Some(o), es[0]).value, es[1..]);
    }
  }

  /** LoadThenEvents for the guarded handlers. */
  lemma LoadThenGuardedEvents(prev: View, p: Party, es: seq<Event>)
    ensures ApplyAllGuarded(OnLoaded(prev, Success(p)), es) == Some(Snapshot(EffectAll(p, es)))
  {
    GuardedAgreesWhenLoaded(Snapshot(p), es);
    LoadThenEvents(prev, p, es);
  }
}
