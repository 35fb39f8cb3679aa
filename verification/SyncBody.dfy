/** What becomes of a whole /sync response: each room is rewritten, event by event, and noted
    by the tracker, then the ready repairs are injected. */
module SyncBody {
  import opened Seqs
  import opened Json
  import opened Edits
  import opened Media
  import opened Rooms
  import opened RepairQueue
  import opened Inject

  /** What the crypto library makes of an encrypted event. */
  datatype SdkResult =
    | Plaintext(plain: Json, info: Json)
    | NoKey(reason: string, session: Option<string>)
    | StoreError

  /** The answers of the library and of the parts of the proxy not modelled here. */
  datatype Env = Env(
    sdk: (string, Json) -> SdkResult,
    parses: string -> bool,
    accepts: Settings -> bool,
    writable: bool)

  datatype Decryption =
    | Decrypted(event: Json)
    | Undecryptable(reason: string, session: Option<string>)
    | Untouched

  function Decrypt(env: Env, room: string, event: Json): Decryption {
    if GetStr(event, "type") != Some(ENCRYPTED) then Decryption.Untouched
    else
      match env.sdk(room, event)
      case Plaintext(plain, info) =>
        (match MergeUnsigned(plain, event, info)
         case None => Decryption.Untouched
         case Some(merged) => Decryption.Decrypted(HarvestEvent(map[], merged, env.writable).1))
      case NoKey(reason, session) => Undecryptable(reason, session)
      case StoreError => Decryption.Untouched
  }

  function RewriteEvent(env: Env, room: string, event: Json): Json {
    match Decrypt(env, room, event)
    case Decrypted(plain) => plain
    case Undecryptable(reason, session) => Placeholder(event, reason, session, true)
    case Untouched => event
  }

  // ----- What the client is shown, by the library's answer

  /** The decrypted event: its own fields, its content with files harvested, and its unsigned
      data over the envelope's, with the marker. */
  ghost predicate IsDecrypted(plain: Json, envelope: Json, info: Json, writable: bool, shown: Json) {
    && shown.Obj?
    && (forall key :: key != "content" && key != "unsigned" ==> Get(shown, key) == Get(plain, key))
    && Get(shown, "content")
       == (if Get(plain, "content").Some? && Get(plain, "content").value.Obj?
           then Some(HarvestContent(map[], Get(plain, "content").value, writable).1)
           else Get(plain, "content"))
    && (if Get(plain, "unsigned").Some? && !Get(plain, "unsigned").value.Obj? then
          Get(shown, "unsigned") == Get(plain, "unsigned")
        else
          && Get2(shown, "unsigned", "ement_e2ee")
             == Some(Obj(map["decrypted" := Bool(true), "encryption_info" := info]))
          && forall key :: key != "ement_e2ee" ==>
               Get2(shown, "unsigned", key)
               == if Get2(plain, "unsigned", key).Some? then Get2(plain, "unsigned", key)
                  else Get2(envelope, "unsigned", key))
  }

  /** The decrypted event where the library decrypts it, a placeholder where it lacks the key,
      and otherwise the event itself. */
  ghost predicate IsShown(env: Env, room: string, event: Json, shown: Json) {
    if GetStr(event, "type") != Some("m.room.encrypted") then shown == event
    else
      match env.sdk(room, event)
      case Plaintext(plain, info) =>
        if plain.Obj? then IsDecrypted(plain, event, info, env.writable, shown) else shown == event
      case NoKey(reason, session) => shown == Placeholder(event, reason, session, true)
      case StoreError => shown == event
  }

  lemma MergedIsDecrypted(plain: Json, envelope: Json, info: Json, writable: bool)
    requires plain.Obj?
    ensures MergeUnsigned(plain, envelope, info).Some?
    ensures IsDecrypted(plain, envelope, info, writable,
                        HarvestEvent(map[], MergeUnsigned(plain, envelope, info).value, writable).1)
  {
    MergeExists(plain, envelope, info);
    var merged := MergeUnsigned(plain, envelope, info).value;
    var shown := HarvestEvent(map[], merged, writable).1;
    forall key | key != "content"
      ensures Get(shown, key) == Get(merged, key)
      ensures key != "unsigned" ==> Get(merged, key) == Get(plain, key)
    {
      MergeKeeps(plain, envelope, info, key);
      HarvestKeepsEvent(map[], merged, writable, key);
    }
    MergeKeeps(plain, envelope, info, "content");
    HarvestKeepsEvent(map[], merged, writable, "unsigned");
    if Get(plain, "unsigned").None? || Get(plain, "unsigned").value.Obj? {
      forall key | key != "ement_e2ee"
        ensures Get2(shown, "unsigned", key)
                == if Get2(plain, "unsigned", key).Some? then Get2(plain, "unsigned", key)
                   else Get2(envelope, "unsigned", key)
      {
        MergeKeeps(plain, envelope, info, key);
      }
    }
  }

  lemma RewriteShows(env: Env, room: string, event: Json)
    ensures IsShown(env, room, event, RewriteEvent(env, room, event))
  {
    var result := env.sdk(room, event);
    if GetStr(event, "type") == Some(ENCRYPTED) && result.Plaintext? {
      MergeExists(result.plain, event, result.info);
      if result.plain.Obj? {
        MergedIsDecrypted(result.plain, event, result.info, env.writable);
      }
    }
  }

  function RewriteEvents(env: Env, room: string, events: seq<Json>): seq<Json> {
    seq(|events|, i requires 0 <= i < |events| => RewriteEvent(env, room, events[i]))
  }

  function WithEvents(entry: Json, events: seq<Json>): Json
    requires Get2(entry, "timeline", "events").Some?
  {
    Put(entry, "timeline", Put(Slot(entry, "timeline"), "events", Arr(events)))
  }

  function RewriteRoom(env: Env, room: string, entry: Json): Json {
    match Get2(entry, "timeline", "events")
    case Some(Arr(events)) =>
      if env.parses(room) then WithEvents(entry, RewriteEvents(env, room, events)) else entry
    case _ => entry
  }

  function RewriteRooms(env: Env, rooms: map<string, Json>): map<string, Json> {
    map r | r in rooms :: RewriteRoom(env, r, rooms[r])
  }

  function RewriteSection(env: Env, body: Json, section: string): Json {
    match Get2(body, "rooms", section)
    case Some(Obj(rooms)) => Put(body, "rooms", Put(Slot(body, "rooms"), section, Obj(RewriteRooms(env, rooms))))
    case _ => body
  }

  function RewriteBody(env: Env, body: Json): Json {
    RewriteSection(env, RewriteSection(env, body, "join"), "leave")
  }

  // ----- Placeholders that are tracked

  /** An event delivered as a placeholder. */
  datatype Placed = Placed(room: string, event: Json, session: Option<string>)

  predicate IsPlaced(env: Env, p: Placed) {
    Decrypt(env, p.room, p.event).Undecryptable? && Decrypt(env, p.room, p.event).session == p.session
  }

  /** Placeholders are what the library has no key for, with the session it names. */
  lemma PlacedLackKeys(env: Env, p: Placed)
    ensures IsPlaced(env, p)
            <==> && GetStr(p.event, "type") == Some("m.room.encrypted")
                 && env.sdk(p.room, p.event).NoKey? && env.sdk(p.room, p.event).session == p.session
  {
  }

  function PlacedIn(env: Env, room: string, events: seq<Json>): seq<Placed> {
    if events == [] then []
    else
      var before := PlacedIn(env, room, events[..|events| - 1]);
      match Decrypt(env, room, events[|events| - 1])
      case Undecryptable(_, session) => before + [Placed(room, events[|events| - 1], session)]
      case _ => before
  }

  function TrackAll(q: Queue, placed: seq<Placed>): Queue {
    if placed == [] then q
    else
      var p := placed[|placed| - 1];
      Track(TrackAll(q, placed[..|placed| - 1]), p.room, p.event, p.session)
  }

  lemma {:induction false} TrackAllConcat(q: Queue, a: seq<Placed>, b: seq<Placed>)
    ensures TrackAll(q, a + b) == TrackAll(TrackAll(q, a), b)
  {
    if b == [] {
      assert a + b == a;
    } else {
      TrackAllConcat(q, a, b[..|b| - 1]);
      assert (a + b)[..|a + b| - 1] == a + b[..|b| - 1];
    }
  }

  /** A placeholder of one of the section's rooms. */
  ghost predicate FromRooms(env: Env, rooms: map<string, Json>, p: Placed) {
    p.room in rooms && env.parses(p.room) && p.event in Events(rooms[p.room]) && IsPlaced(env, p)
  }

  lemma {:induction false} PlacedInIs(env: Env, room: string, events: seq<Json>, p: Placed)
    ensures p in PlacedIn(env, room, events) <==> p.room == room && p.event in events && IsPlaced(env, p)
  {
    if events == [] {
    } else {
      PlacedInIs(env, room, events[..|events| - 1], p);
      assert events == events[..|events| - 1] + [events[|events| - 1]];
    }
  }

  // ----- The pass over the response

  method DecryptEvents(queue: RepairQueue, env: Env, room: string, events: seq<Json>) returns (out: seq<Json>)
    modifies queue
    ensures out == RewriteEvents(env, room, events)
    ensures queue.View() == TrackAll(old(queue.View()), PlacedIn(env, room, events))
  {
    out := [];
    for i := 0 to |events|
      invariant out == RewriteEvents(env, room, events[..i])
      invariant queue.View() == TrackAll(old(queue.View()), PlacedIn(env, room, events[..i]))
    {
      OneMoreEvent(env, room, events[..i], events[i], old(queue.View()));
      assert events[..i + 1] == events[..i] + [events[i]];
      var event := DecryptEvent(queue, env, room, events[i]);
      out := out + [event];
    }
    assert events[..|events|] == events;
  }

  method DecryptEvent(queue: RepairQueue, env: Env, room: string, event: Json) returns (event': Json)
    modifies queue
    ensures event' == RewriteEvent(env, room, event) && IsShown(env, room, event, event')
    ensures queue.View() == TrackIfPlaced(old(queue.View()), env, room, event)
  {
    RewriteShows(env, room, event);
    match Decrypt(env, room, event)
    case Decrypted(plain) =>
      event' := plain;
    case Undecryptable(reason, session) =>
      queue.AddPlaceholder(room, event, session);
      event' := Placeholder(event, reason, session, true);
    case Untouched =>
      event' := event;
  }

  function TrackIfPlaced(q: Queue, env: Env, room: string, event: Json): Queue {
    match Decrypt(env, room, event)
    case Undecryptable(_, session) => Track(q, room, event, session)
    case _ => q
  }

  lemma OneMoreEvent(env: Env, room: string, events: seq<Json>, event: Json, q: Queue)
    ensures RewriteEvents(env, room, events + [event])
            == RewriteEvents(env, room, events) + [RewriteEvent(env, room, event)]
    ensures TrackAll(q, PlacedIn(env, room, events + [event]))
            == TrackIfPlaced(TrackAll(q, PlacedIn(env, room, events)), env, room, event)
  {
    assert (events + [event])[..|events|] == events;
    match Decrypt(env, room, event)
    case Undecryptable(_, session) =>
      var before := PlacedIn(env, room, events);
      assert (before + [Placed(room, event, session)])[..|before|] == before;
    case _ =>
  }

  function StateEvents(entry: Json): seq<Json> {
    match Get2(entry, "state", "events") case Some(Arr(events)) => events case _ => []
  }

  /** What the tracker learns from one room of a response. */
  function NoteRoom(t: Tracker, env: Env, room: string, entry: Json, join: bool): Tracker {
    if !env.parses(room) then t
    else
      var t1 := if join then Joined(t, room, Get(entry, "unread_notifications")) else Left(t, room);
      ScanBoth(t1, env, room, StateEvents(entry), Events(entry))
  }

  function ScanBoth(t: Tracker, env: Env, room: string, state: seq<Json>, timeline: seq<Json>): Tracker {
    Scanned(Scanned(t, room, state, env.accepts), room, timeline, env.accepts)
  }

  method RewriteOneRoom(queue: RepairQueue, tracker: RoomTracker, env: Env, room: string, entry: Json, join: bool)
    returns (entry': Json, ghost placed: seq<Placed>)
    modifies queue, tracker
    ensures entry' == RewriteRoom(env, room, entry)
    ensures placed == if env.parses(room) then PlacedIn(env, room, Events(entry)) else []
    ensures queue.View() == TrackAll(old(queue.View()), placed)
    ensures tracker.View() == NoteRoom(old(tracker.View()), env, room, entry, join)
  {
    placed := [];
    entry' := entry;
    if !env.parses(room) {
      return;
    }
    if join {
      tracker.NoteJoined(room, Get(entry, "unread_notifications"));
    } else {
      tracker.NoteLeft(room);
    }
    match Get2(entry, "state", "events") {
      case Some(Arr(events)) =>
        tracker.ScanStateEvents(room, events, env.accepts);
      case _ =>
    }
    match Get2(entry, "timeline", "events") {
      case Some(Arr(events)) =>
        tracker.ScanStateEvents(room, events, env.accepts);
        var events' := DecryptEvents(queue, env, room, events);
        placed := PlacedIn(env, room, events);
        entry' := WithEvents(entry, events');
      case _ =>
    }
  }

  predicate InEvents(entry: Json, section: string, event: Json) {
    match Get2(entry, section, "events") case Some(Arr(events)) => event in events case _ => false
  }

  /** What one room's entry teaches, by its keys: settings from the state and the timeline,
      the unread counts of a join; nothing from a room whose ID does not parse. */
  lemma NoteRoomLearns(t: Tracker, env: Env, room: string, entry: Json, join: bool)
    ensures var t' := NoteRoom(t, env, room, entry, join);
            if !env.parses(room) then t' == t
            else
              && (room in t'.settings
                  <==> room in t.settings
                       || exists e :: (InEvents(entry, "state", e) || InEvents(entry, "timeline", e))
                                      && SettingsOf(e).Some? && env.accepts(SettingsOf(e).value))
              && (room in t'.unencrypted
                  <==> room in t.unencrypted
                       && forall e :: InEvents(entry, "state", e) || InEvents(entry, "timeline", e) ==>
                            SettingsOf(e).None?)
              && t'.joined
                 == (if join then Joined(t, room, Get(entry, "unread_notifications")) else Left(t, room)).joined
  {
    if env.parses(room) {
      var t1 := if join then Joined(t, room, Get(entry, "unread_notifications")) else Left(t, room);
      BothTeach(t1, env, room, StateEvents(entry), Events(entry));
      assert forall e :: InEvents(entry, "state", e) <==> e in StateEvents(entry);
      assert forall e :: InEvents(entry, "timeline", e) <==> e in Events(entry);
    }
  }

  lemma BothTeach(t: Tracker, env: Env, room: string, state: seq<Json>, timeline: seq<Json>)
    ensures var t' := ScanBoth(t, env, room, state, timeline);
            && (room in t'.settings
                <==> room in t.settings || AnyAccepted(state, env.accepts) || AnyAccepted(timeline, env.accepts))
            && (room in t'.unencrypted <==> room in t.unencrypted && !AnySettings(state) && !AnySettings(timeline))
            && t'.joined == t.joined
  {
    var t1 := Scanned(t, room, state, env.accepts);
    ScanSettles(t, room, state, env.accepts);
    ScanSettles(t1, room, timeline, env.accepts);
    ScanFrame(t, room, state, env.accepts);
    ScanFrame(t1, room, timeline, env.accepts);
  }

  lemma NoteKeepsDisjoint(t: Tracker, env: Env, room: string, entry: Json, join: bool)
    requires t.Disjoint()
    ensures NoteRoom(t, env, room, entry, join).Disjoint()
  {
    if env.parses(room) {
      var t1 := if join then Joined(t, room, Get(entry, "unread_notifications")) else Left(t, room);
      ScanKeepsDisjoint(t1, room, StateEvents(entry), env.accepts);
      ScanKeepsDisjoint(Scanned(t1, room, StateEvents(entry), env.accepts), room, Events(entry), env.accepts);
    }
  }

  lemma NoteIsLocal(t: Tracker, env: Env, room: string, entry: Json, join: bool, r: string)
    requires r != room
    ensures AgreeOn(NoteRoom(t, env, room, entry, join), t, r)
  {
    if env.parses(room) {
      var t1 := if join then Joined(t, room, Get(entry, "unread_notifications")) else Left(t, room);
      assert AgreeOn(t1, t, r);
      BothAreLocal(t1, env, room, StateEvents(entry), Events(entry), r);
    }
  }

  lemma BothAreLocal(t: Tracker, env: Env, room: string, state: seq<Json>, timeline: seq<Json>, r: string)
    requires r != room
    ensures AgreeOn(ScanBoth(t, env, room, state, timeline), t, r)
  {
    ScanIsLocal(t, room, state, env.accepts, r);
    ScanIsLocal(Scanned(t, room, state, env.accepts), room, timeline, env.accepts, r);
  }

  lemma NoteReadsOwnRoom(t: Tracker, u: Tracker, env: Env, room: string, entry: Json, join: bool)
    requires AgreeOn(t, u, room)
    ensures AgreeOn(NoteRoom(t, env, room, entry, join), NoteRoom(u, env, room, entry, join), room)
  {
    if env.parses(room) {
      var unread := Get(entry, "unread_notifications");
      JoinReadsOwnRoom(t, u, room, unread);
      BothReadOwnRoom(if join then Joined(t, room, unread) else Left(t, room),
                      if join then Joined(u, room, unread) else Left(u, room),
                      env, room, StateEvents(entry), Events(entry));
    }
  }

  lemma JoinReadsOwnRoom(t: Tracker, u: Tracker, room: string, unread: Option<Json>)
    requires AgreeOn(t, u, room)
    ensures AgreeOn(Joined(t, room, unread), Joined(u, room, unread), room)
    ensures AgreeOn(Left(t, room), Left(u, room), room)
  {
  }

  lemma BothReadOwnRoom(t: Tracker, u: Tracker, env: Env, room: string, state: seq<Json>, timeline: seq<Json>)
    requires AgreeOn(t, u, room)
    ensures AgreeOn(ScanBoth(t, env, room, state, timeline), ScanBoth(u, env, room, state, timeline), room)
  {
    ScanReadsOwnRoom(t, u, room, state, env.accepts);
    ScanReadsOwnRoom(Scanned(t, room, state, env.accepts), Scanned(u, room, state, env.accepts), room, timeline,
                     env.accepts);
  }

  /** What the tracker should know of a room once the rooms `done` have been noted. */
  function NotedSoFar(t: Tracker, env: Env, rooms: map<string, Json>, join: bool, done: set<string>, r: string): Tracker
  {
    if r in done && r in rooms then NoteRoom(t, env, r, rooms[r], join) else t
  }

  /** Of every room the tracker knows what that room's own entry tells, whatever the order. */
  ghost predicate Noted(t: Tracker, t': Tracker, env: Env, rooms: map<string, Json>, join: bool, done: set<string>) {
    && (t.Disjoint() ==> t'.Disjoint())
    && forall r :: AgreeOn(t', NotedSoFar(t, env, rooms, join, done, r), r)
  }

  lemma NotedOneMore(t: Tracker, t1: Tracker, env: Env, rooms: map<string, Json>, join: bool, done: set<string>,
                     room: string)
    requires Noted(t, t1, env, rooms, join, done) && room in rooms && room !in done
    ensures Noted(t, NoteRoom(t1, env, room, rooms[room], join), env, rooms, join, done + {room})
  {
    var t2 := NoteRoom(t1, env, room, rooms[room], join);
    if t1.Disjoint() {
      NoteKeepsDisjoint(t1, env, room, rooms[room], join);
    }
    forall r
      ensures AgreeOn(t2, NotedSoFar(t, env, rooms, join, done + {room}, r), r)
    {
      assert AgreeOn(t1, NotedSoFar(t, env, rooms, join, done, r), r);
      if r == room {
        NoteReadsOwnRoom(t1, t, env, room, rooms[room], join);
      } else {
        NoteIsLocal(t1, env, room, rooms[room], join, r);
      }
    }
  }

  /** The placeholders of a section whose rooms are visited in this order. */
  function PlacedOf(env: Env, rooms: map<string, Json>, visited: seq<string>): seq<Placed> {
    if visited == [] then []
    else
      var before, room := PlacedOf(env, rooms, visited[..|visited| - 1]), visited[|visited| - 1];
      if room in rooms && env.parses(room) then before + PlacedIn(env, room, Events(rooms[room])) else before
  }

  lemma {:induction false} PlacedOfIs(env: Env, rooms: map<string, Json>, visited: seq<string>, p: Placed)
    ensures p in PlacedOf(env, rooms, visited) <==> p.room in visited && FromRooms(env, rooms, p)
  {
    if visited == [] {
    } else {
      var before, room := visited[..|visited| - 1], visited[|visited| - 1];
      PlacedOfIs(env, rooms, before, p);
      assert visited == before + [room];
      if room in rooms {
        PlacedInIs(env, room, Events(rooms[room]), p);
      }
    }
  }

  /** Each room once, in some order. */
  ghost predicate Enumerates(visited: seq<string>, rooms: map<string, Json>) {
    NoDup(visited) && Elems(visited) == rooms.Keys
  }

  ghost predicate Rewritten(env: Env, rooms: map<string, Json>, done: set<string>, rooms': map<string, Json>) {
    && done <= rooms.Keys && rooms'.Keys == done
    && forall r :: r in rooms' ==> rooms'[r] == RewriteRoom(env, r, rooms[r])
  }

  lemma VisitOneMore(visited: seq<string>, room: string)
    requires NoDup(visited) && room !in Elems(visited)
    ensures NoDup(visited + [room]) && Elems(visited + [room]) == Elems(visited) + {room}
  {
    NoDupAppend(visited, room);
    ElemsConcat(visited, [room]);
  }

  lemma RewriteOneMore(env: Env, rooms: map<string, Json>, done: set<string>, rooms': map<string, Json>, room: string)
    requires Rewritten(env, rooms, done, rooms') && room in rooms
    ensures Rewritten(env, rooms, done + {room}, rooms'[room := RewriteRoom(env, room, rooms[room])])
  {
  }

  /** How far a pass over a section has come, from queue `q` and tracker `t`. */
  ghost predicate PassedOver(env: Env, rooms: map<string, Json>, join: bool, visited: seq<string>, q: Queue,
                             t: Tracker, q': Queue, t': Tracker, rooms': map<string, Json>)
  {
    && NoDup(visited) && Rewritten(env, rooms, Elems(visited), rooms')
    && q' == TrackAll(q, PlacedOf(env, rooms, visited))
    && Noted(t, t', env, rooms, join, Elems(visited))
  }

  lemma PlacedOneMore(env: Env, rooms: map<string, Json>, visited: seq<string>, room: string, more: seq<Placed>)
    requires room in rooms
    requires more == if env.parses(room) then PlacedIn(env, room, Events(rooms[room])) else []
    ensures PlacedOf(env, rooms, visited + [room]) == PlacedOf(env, rooms, visited) + more
  {
    assert (visited + [room])[..|visited|] == visited;
  }

  lemma PassOneMore(env: Env, rooms: map<string, Json>, join: bool, visited: seq<string>, q: Queue,
                    t: Tracker, q1: Queue, t1: Tracker, rooms': map<string, Json>, room: string, more: seq<Placed>)
    requires PassedOver(env, rooms, join, visited, q, t, q1, t1, rooms')
    requires room in rooms && room !in Elems(visited)
    requires more == if env.parses(room) then PlacedIn(env, room, Events(rooms[room])) else []
    ensures PassedOver(env, rooms, join, visited + [room], q, t, TrackAll(q1, more),
                       NoteRoom(t1, env, room, rooms[room], join),
                       rooms'[room := RewriteRoom(env, room, rooms[room])])
  {
    PlacedOneMore(env, rooms, visited, room, more);
    TrackAllConcat(q, PlacedOf(env, rooms, visited), more);
    VisitOneMore(visited, room);
    RewriteOneMore(env, rooms, Elems(visited), rooms', room);
    NotedOneMore(t, t1, env, rooms, join, Elems(visited), room);
  }

  lemma PassAll(env: Env, rooms: map<string, Json>, join: bool, visited: seq<string>, q: Queue, t: Tracker,
                q': Queue, t': Tracker, rooms': map<string, Json>)
    requires PassedOver(env, rooms, join, visited, q, t, q', t', rooms') && Elems(visited) == rooms.Keys
    ensures rooms' == RewriteRooms(env, rooms)
  {
  }

  /** One room of the pass. */
  method RewriteNextRoom(queue: RepairQueue, tracker: RoomTracker, env: Env, rooms: map<string, Json>, join: bool,
                         room: string, rewritten: map<string, Json>,
                         ghost visited: seq<string>, ghost q: Queue, ghost t: Tracker)
    returns (rooms': map<string, Json>)
    requires room in rooms && room !in Elems(visited)
    requires PassedOver(env, rooms, join, visited, q, t, queue.View(), tracker.View(), rewritten)
    modifies queue, tracker
    ensures PassedOver(env, rooms, join, visited + [room], q, t, queue.View(), tracker.View(), rooms')
  {
    ghost var q1, t1 := queue.View(), tracker.View();
    var entry', more := RewriteOneRoom(queue, tracker, env, room, rooms[room], join);
    PassOneMore(env, rooms, join, visited, q, t, q1, t1, rewritten, room, more);
    rooms' := rewritten[room := entry'];
  }

  method RewriteAllRooms(queue: RepairQueue, tracker: RoomTracker, env: Env, rooms: map<string, Json>, join: bool)
    returns (rooms': map<string, Json>, ghost visited: seq<string>)
    modifies queue, tracker
    ensures PassedOver(env, rooms, join, visited, old(queue.View()), old(tracker.View()),
                       queue.View(), tracker.View(), rooms')
    ensures Enumerates(visited, rooms) && rooms' == RewriteRooms(env, rooms)
  {
    rooms', visited := map[], [];
    var left := rooms.Keys;
    ghost var q, t := queue.View(), tracker.View();
    while left != {}
      invariant forall r :: r in left <==> r in rooms && r !in Elems(visited)
      invariant PassedOver(env, rooms, join, visited, q, t, queue.View(), tracker.View(), rooms')
      decreases left
    {
      var room :| room in left;
      rooms' := RewriteNextRoom(queue, tracker, env, rooms, join, room, rooms', visited, q, t);
      left := left - {room};
      VisitOneMore(visited, room);
      visited := visited + [room];
    }
    assert Elems(visited) == rooms.Keys;
    PassAll(env, rooms, join, visited, q, t, queue.View(), tracker.View(), rooms');
  }

  /** The queue's way to decrypt: by the library, as when the event was delivered. */
  function DecryptorOf(env: Env): Decryptor {
    (repair: PendingRepair) =>
      match Decrypt(env, repair.room, repair.event)
      case Decrypted(plain) => Some(plain)
      case _ => None
  }

  /** A repair is decrypted exactly if the library now gives its event's plaintext, and then
      just as if it were delivered. */
  lemma DecryptorDecrypts(env: Env, repair: PendingRepair)
    ensures var result, plain := env.sdk(repair.room, repair.event), DecryptorOf(env)(repair);
            && (plain.Some?
                <==> && GetStr(repair.event, "type") == Some("m.room.encrypted")
                     && result.Plaintext? && result.plain.Obj?)
            && (plain.Some? ==> IsDecrypted(result.plain, repair.event, result.info, env.writable, plain.value))
  {
    var result := env.sdk(repair.room, repair.event);
    if result.Plaintext? {
      MergeExists(result.plain, repair.event, result.info);
      if result.plain.Obj? {
        MergedIsDecrypted(result.plain, repair.event, result.info, env.writable);
      }
    }
  }

  lemma DecryptedIsMarkable(env: Env)
    ensures Markable(DecryptorOf(env))
  {
    forall r: PendingRepair | DecryptorOf(env)(r).Some?
      ensures MarkerOpen(DecryptorOf(env)(r).value)
    {
      var result := env.sdk(r.room, r.event);
      MergeKeeps(result.plain, r.event, result.info, "");
      HarvestKeepsEvent(map[], MergeUnsigned(result.plain, r.event, result.info).value, env.writable, "unsigned");
    }
  }

  lemma RewrittenRoomIsOpen(env: Env, room: string, entry: Json)
    requires Open(entry) && Open(Slot(entry, "timeline"))
    ensures Open(RewriteRoom(env, room, entry)) && Open(Slot(RewriteRoom(env, room, entry), "timeline"))
  {
  }

  lemma SectionRewritten(env: Env, body: Json, section: string)
    requires WellShaped(body)
    ensures WellShaped(RewriteSection(env, body, section))
    ensures JoinRooms(RewriteSection(env, body, section))
            == if section == "join" then RewriteRooms(env, JoinRooms(body)) else JoinRooms(body)
    ensures forall other :: other != section ==>
              Get2(RewriteSection(env, body, section), "rooms", other) == Get2(body, "rooms", other)
  {
    forall r | r in JoinRooms(body)
      ensures Open(RewriteRoom(env, r, JoinRooms(body)[r]))
              && Open(Slot(RewriteRoom(env, r, JoinRooms(body)[r]), "timeline"))
    {
      RewrittenRoomIsOpen(env, r, JoinRooms(body)[r]);
    }
    var body' := RewriteSection(env, body, section);
    assert JoinRooms(body') == if section == "join" then RewriteRooms(env, JoinRooms(body)) else JoinRooms(body);
    assert Open(Slot(body', "rooms")) && Open(Slot(Slot(body', "rooms"), "join"));
  }

  lemma BodyRewritten(env: Env, body: Json)
    requires WellShaped(body)
    ensures WellShaped(RewriteBody(env, body))
    ensures JoinRooms(RewriteBody(env, body)) == RewriteRooms(env, JoinRooms(body))
  {
    SectionRewritten(env, body, "join");
    SectionRewritten(env, RewriteSection(env, body, "join"), "leave");
  }

  function SectionRooms(body: Json, section: string): map<string, Json> {
    match Get2(body, "rooms", section) case Some(Obj(rooms)) => rooms case _ => map[]
  }

  method PassSection(queue: RepairQueue, tracker: RoomTracker, env: Env, body: Json, section: string)
    returns (body': Json, ghost visited: seq<string>)
    modifies queue, tracker
    ensures body' == RewriteSection(env, body, section)
    ensures Enumerates(visited, SectionRooms(body, section))
    ensures queue.View() == TrackAll(old(queue.View()), PlacedOf(env, SectionRooms(body, section), visited))
    ensures Noted(old(tracker.View()), tracker.View(), env, SectionRooms(body, section), section == "join",
                  SectionRooms(body, section).Keys)
  {
    match Get2(body, "rooms", section) {
      case Some(Obj(rooms)) =>
        var rooms', order := RewriteAllRooms(queue, tracker, env, rooms, section == "join");
        visited := order;
        body' := Put(body, "rooms", Put(Slot(body, "rooms"), section, Obj(rooms')));
      case _ =>
        body', visited := body, [];
    }
  }

  /** What the tracker should know of a room: what it knew, what its entry among the joined
      rooms tells, and what its entry among the left ones does. */
  function NotedIn(t: Tracker, env: Env, body: Json, r: string): Tracker {
    var join, leave := SectionRooms(body, "join"), SectionRooms(body, "leave");
    var t1 := if r in join then NoteRoom(t, env, r, join[r], true) else t;
    if r in leave then NoteRoom(t1, env, r, leave[r], false) else t1
  }

  /** For the rooms the client is in that means: those it was in and those that joined, without
      those that left; and of a room that joined, the unread counts of its entry or the last. */
  lemma NotedJoins(t: Tracker, env: Env, body: Json, r: string)
    ensures var t', join, leave := NotedIn(t, env, body, r), SectionRooms(body, "join"), SectionRooms(body, "leave");
            && (r in t'.joined
                <==> (r in t.joined || (r in join && env.parses(r))) && !(r in leave && env.parses(r)))
            && (r in t'.joined && r in join && env.parses(r) ==>
                  t'.joined[r]
                  == if Get(join[r], "unread_notifications").Some? then Get(join[r], "unread_notifications")
                     else if r in t.joined then t.joined[r] else None)
            && (r in t'.joined && !(r in join && env.parses(r)) ==> t'.joined[r] == t.joined[r])
  {
    var join, leave := SectionRooms(body, "join"), SectionRooms(body, "leave");
    var t1 := if r in join then NoteRoom(t, env, r, join[r], true) else t;
    if r in join {
      NoteRoomLearns(t, env, r, join[r], true);
    }
    if r in leave {
      NoteRoomLearns(t1, env, r, leave[r], false);
    }
  }

  lemma NotedTwice(t: Tracker, t1: Tracker, t2: Tracker, env: Env, body: Json, r: string)
    requires Noted(t, t1, env, SectionRooms(body, "join"), true, SectionRooms(body, "join").Keys)
    requires Noted(t1, t2, env, SectionRooms(body, "leave"), false, SectionRooms(body, "leave").Keys)
    ensures AgreeOn(t2, NotedIn(t, env, body, r), r)
  {
    var join, leave := SectionRooms(body, "join"), SectionRooms(body, "leave");
    var u := NotedSoFar(t, env, join, true, join.Keys, r);
    assert AgreeOn(t1, u, r);
    assert AgreeOn(t2, NotedSoFar(t1, env, leave, false, leave.Keys, r), r);
    if r in leave {
      NoteReadsOwnRoom(t1, u, env, r, leave[r], false);
    }
  }

  lemma PlacedBySection(env: Env, body: Json, joins: seq<string>, leaves: seq<string>)
    requires Enumerates(joins, SectionRooms(body, "join")) && Enumerates(leaves, SectionRooms(body, "leave"))
    ensures var a, b := PlacedOf(env, SectionRooms(body, "join"), joins),
                        PlacedOf(env, SectionRooms(body, "leave"), leaves);
            forall p :: p in a + b <==>
              FromRooms(env, SectionRooms(body, "join"), p) || FromRooms(env, SectionRooms(body, "leave"), p)
  {
    var a, b := PlacedOf(env, SectionRooms(body, "join"), joins), PlacedOf(env, SectionRooms(body, "leave"), leaves);
    forall p
      ensures p in a + b <==>
                FromRooms(env, SectionRooms(body, "join"), p) || FromRooms(env, SectionRooms(body, "leave"), p)
    {
      PlacedOfIs(env, SectionRooms(body, "join"), joins, p);
      PlacedOfIs(env, SectionRooms(body, "leave"), leaves, p);
      assert p.room in joins <==> p.room in Elems(joins);
      assert p.room in leaves <==> p.room in Elems(leaves);
    }
  }

  /** The two sections, one after the other, and then the injection: the response is
      `RewriteBody` with the repairs of the queue as the sections left it. */
  method ProcessSyncBody(queue: RepairQueue, tracker: RoomTracker, env: Env, body: Json)
    returns (body': Json, repaired: nat, ghost placed: seq<Placed>, ghost joins: seq<string>, ghost leaves: seq<string>)
    requires WellShaped(body)
    modifies queue, tracker
    ensures var mid, q := RewriteBody(env, body), TrackAll(old(queue.View()), placed);
            && WellShaped(mid) && Markable(DecryptorOf(env))
            && Progress(body', queue.View(), repaired)
               == Injected(mid, AfterTake(q), tracker.joined, DecryptorOf(env), Taken(q))
    // Room by room, in some order; within a room as its events come.
    ensures Enumerates(joins, SectionRooms(body, "join")) && Enumerates(leaves, SectionRooms(body, "leave"))
    ensures placed == PlacedOf(env, SectionRooms(body, "join"), joins)
                      + PlacedOf(env, SectionRooms(body, "leave"), leaves)
    ensures forall p :: p in placed <==>
              FromRooms(env, SectionRooms(body, "join"), p) || FromRooms(env, SectionRooms(body, "leave"), p)
    ensures Shows(env, body, body')
    ensures forall r :: AgreeOn(tracker.View(), NotedIn(old(tracker.View()), env, body, r), r)
    ensures old(tracker.View()).Disjoint() ==> tracker.View().Disjoint()
  {
    BodyRewritten(env, body);
    SectionRewritten(env, body, "join");
    DecryptedIsMarkable(env);
    ghost var t := tracker.View();
    var mid, j := PassSection(queue, tracker, env, body, "join");
    ghost var t1 := tracker.View();
    var whole, l := PassSection(queue, tracker, env, mid, "leave");
    assert SectionRooms(mid, "leave") == SectionRooms(body, "leave");
    joins, leaves := j, l;
    placed := PlacedOf(env, SectionRooms(body, "join"), joins) + PlacedOf(env, SectionRooms(body, "leave"), leaves);
    PlacedBySection(env, body, joins, leaves);
    TrackAllConcat(old(queue.View()), PlacedOf(env, SectionRooms(body, "join"), joins),
                   PlacedOf(env, SectionRooms(body, "leave"), leaves));
    ghost var t2 := tracker.View();
    forall r
      ensures AgreeOn(t2, NotedIn(t, env, body, r), r)
    {
      NotedTwice(t, t1, t2, env, body, r);
    }
    ghost var full := queue.View();
    ResponseShows(env, body, full, tracker.joined);
    body', repaired := InjectRepairs(queue, tracker.joined, DecryptorOf(env), whole);
  }

  // ----- What a whole response shows

  /** Each event of a section's rooms is shown as it should be, in its place. */
  ghost predicate AllShown(env: Env, rooms: map<string, Json>, rooms': map<string, Json>) {
    forall r, i: nat :: r in rooms && env.parses(r) && i < |Events(rooms[r])| ==> ShownAt(env, rooms, rooms', r, i)
  }

  ghost predicate ShownAt(env: Env, rooms: map<string, Json>, rooms': map<string, Json>, r: string, i: nat)
    requires r in rooms && i < |Events(rooms[r])|
  {
    r in rooms' && i < |Events(rooms'[r])| && IsShown(env, r, Events(rooms[r])[i], Events(rooms'[r])[i])
  }

  /** Of each room's entry nothing but the timeline's events changes. */
  ghost predicate EntriesKept(rooms: map<string, Json>, rooms': map<string, Json>) {
    forall r :: r in rooms ==> r in rooms' && SameButEvents(rooms'[r], rooms[r])
  }

  /** Of the response nothing but its joined and left rooms changes. */
  ghost predicate BodyKept(body: Json, body': Json) {
    && (forall key :: key != "rooms" ==> Get(body', key) == Get(body, key))
    && (forall key :: key != "join" && key != "leave" ==> Get2(body', "rooms", key) == Get2(body, "rooms", key))
  }

  lemma EntryKept(env: Env, room: string, entry: Json)
    ensures SameButEvents(RewriteRoom(env, room, entry), entry)
  {
  }

  lemma RoomsShown(env: Env, rooms: map<string, Json>)
    ensures AllShown(env, rooms, RewriteRooms(env, rooms)) && EntriesKept(rooms, RewriteRooms(env, rooms))
  {
    forall r, i: nat | r in rooms && env.parses(r) && i < |Events(rooms[r])|
      ensures ShownAt(env, rooms, RewriteRooms(env, rooms), r, i)
    {
      RewriteShows(env, r, Events(rooms[r])[i]);
    }
    forall r | r in rooms
      ensures SameButEvents(RewriteRoom(env, r, rooms[r]), rooms[r])
    {
      EntryKept(env, r, rooms[r]);
    }
  }

  lemma SectionKept(env: Env, body: Json, section: string)
    requires section == "join" || section == "leave"
    ensures BodyKept(body, RewriteSection(env, body, section))
  {
  }

  lemma BodyIsKept(env: Env, body: Json)
    ensures BodyKept(body, RewriteBody(env, body))
  {
    SectionKept(env, body, "join");
    SectionKept(env, RewriteSection(env, body, "join"), "leave");
  }

  /** One room's entry goes on as another, with more events at most. */
  ghost predicate GoesOn(entry: Json, entry': Json) {
    Events(entry) <= Events(entry') && SameButEvents(entry', entry)
  }

  lemma InjectionGoesOn(body: Json, q: Queue, joined: map<string, Option<Json>>, decrypt: Decryptor,
                        repairs: seq<PendingRepair>, r: string)
    requires WellShaped(body) && Markable(decrypt) && r in JoinRooms(body)
    ensures var p := Injected(body, q, joined, decrypt, repairs);
            r in JoinRooms(p.body) && GoesOn(JoinRooms(body)[r], JoinRooms(p.body)[r])
  {
    InjectConserves(body, q, joined, decrypt, repairs);
    var p := Injected(body, q, joined, decrypt, repairs);
    assert RoomDelivers(body, p.body, joined, r, EditsFor(body, joined, decrypt, repairs, r));
  }

  lemma GoesOnAt(env: Env, rooms: map<string, Json>, rooms1: map<string, Json>, rooms2: map<string, Json>, r: string,
                 i: nat)
    requires r in rooms && i < |Events(rooms[r])| && ShownAt(env, rooms, rooms1, r, i)
    requires r in rooms2 && GoesOn(rooms1[r], rooms2[r])
    ensures ShownAt(env, rooms, rooms2, r, i)
  {
  }

  lemma SameButEventsOn(a: Json, b: Json, c: Json)
    requires SameButEvents(b, a) && SameButEvents(c, b)
    ensures SameButEvents(c, a)
  {
  }

  lemma GoingOnShows(env: Env, rooms: map<string, Json>, rooms1: map<string, Json>, rooms2: map<string, Json>)
    requires AllShown(env, rooms, rooms1) && EntriesKept(rooms, rooms1)
    requires forall r :: r in rooms1 ==> r in rooms2 && GoesOn(rooms1[r], rooms2[r])
    ensures AllShown(env, rooms, rooms2) && EntriesKept(rooms, rooms2)
  {
    forall r, i: nat | r in rooms && env.parses(r) && i < |Events(rooms[r])|
      ensures ShownAt(env, rooms, rooms2, r, i)
    {
      assert ShownAt(env, rooms, rooms1, r, i);
      GoesOnAt(env, rooms, rooms1, rooms2, r, i);
    }
    forall r | r in rooms
      ensures r in rooms2 && SameButEvents(rooms2[r], rooms[r])
    {
      SameButEventsOn(rooms[r], rooms1[r], rooms2[r]);
    }
  }

  /** Injection leaves what is shown in its place, and adds only to timelines. */
  lemma InjectionShows(env: Env, body: Json, q: Queue, joined: map<string, Option<Json>>, decrypt: Decryptor,
                       repairs: seq<PendingRepair>, rooms: map<string, Json>)
    requires WellShaped(body) && Markable(decrypt)
    requires AllShown(env, rooms, JoinRooms(body)) && EntriesKept(rooms, JoinRooms(body))
    ensures var p := Injected(body, q, joined, decrypt, repairs);
            AllShown(env, rooms, JoinRooms(p.body)) && EntriesKept(rooms, JoinRooms(p.body))
  {
    var p := Injected(body, q, joined, decrypt, repairs);
    forall r | r in JoinRooms(body)
      ensures r in JoinRooms(p.body) && GoesOn(JoinRooms(body)[r], JoinRooms(p.body)[r])
    {
      InjectionGoesOn(body, q, joined, decrypt, repairs, r);
    }
    GoingOnShows(env, rooms, JoinRooms(body), JoinRooms(p.body));
  }

  /** All in all, for the client: every event of a joined or left room is shown by the
      library's answer, in its place, and nothing else of the response changes. */
  ghost predicate Shows(env: Env, body: Json, body': Json) {
    && AllShown(env, SectionRooms(body, "join"), SectionRooms(body', "join"))
    && AllShown(env, SectionRooms(body, "leave"), SectionRooms(body', "leave"))
    && EntriesKept(SectionRooms(body, "join"), SectionRooms(body', "join"))
    && EntriesKept(SectionRooms(body, "leave"), SectionRooms(body', "leave"))
    && BodyKept(body, body')
  }

  lemma ResponseShows(env: Env, body: Json, q: Queue, joined: map<string, Option<Json>>)
    requires WellShaped(body) && WellShaped(RewriteBody(env, body)) && Markable(DecryptorOf(env))
    ensures Shows(env, body, Injected(RewriteBody(env, body), AfterTake(q), joined, DecryptorOf(env), Taken(q)).body)
  {
    var mid := RewriteBody(env, body);
    BodyRewritten(env, body);
    LeftRoomsRewritten(env, body);
    BodyIsKept(env, body);
    RoomsShown(env, SectionRooms(body, "join"));
    RoomsShown(env, SectionRooms(body, "leave"));
    InjectionShows(env, mid, AfterTake(q), joined, DecryptorOf(env), Taken(q), SectionRooms(body, "join"));
    InjectConserves(mid, AfterTake(q), joined, DecryptorOf(env), Taken(q));
    var p := Injected(mid, AfterTake(q), joined, DecryptorOf(env), Taken(q));
    assert SameButRooms(p.body, mid);
    assert Get2(p.body, "rooms", "leave") == Get2(mid, "rooms", "leave");
  }

  // ----- One to one

  /** The library gives a decrypted event the identity of its envelope. */
  ghost predicate Faithful(env: Env) {
    forall room, event :: env.sdk(room, event).Plaintext? && env.sdk(room, event).plain.Obj? ==>
      Get(env.sdk(room, event).plain, "event_id") == Get(event, "event_id")
  }

  /** Rewriting an event keeps its ID and leaves any event that is not encrypted alone. */
  lemma RewriteKeepsId(env: Env, room: string, event: Json)
    requires Faithful(env)
    ensures Get(RewriteEvent(env, room, event), "event_id") == Get(event, "event_id")
    ensures GetStr(event, "type") != Some(ENCRYPTED) ==> RewriteEvent(env, room, event) == event
  {
    match Decrypt(env, room, event)
    case Decrypted(_) =>
      var result := env.sdk(room, event);
      MergeKeeps(result.plain, event, result.info, "event_id");
      HarvestKeepsEvent(map[], MergeUnsigned(result.plain, event, result.info).value, env.writable, "event_id");
    case Undecryptable(reason, session) =>
      PlaceholderFields(event, reason, session, true);
    case Untouched =>
  }

  /** An ID that names a repairing edit. */
  ghost predicate IsEdit(event: Json) {
    exists id :: GetStr(event, "event_id") == Some(id + "~decrypted")
  }

  lemma {:induction false} EditsAreEdits(body: Json, joined: map<string, Option<Json>>, decrypt: Decryptor,
                                         repairs: seq<PendingRepair>, room: string)
    requires Markable(decrypt)
    ensures forall e :: e in EditsFor(body, joined, decrypt, repairs, room) ==> IsEdit(e)
  {
    if repairs == [] {
    } else {
      EditsAreEdits(body, joined, decrypt, repairs[..|repairs| - 1], room);
      var repair := repairs[|repairs| - 1];
      var fate := FateOf(body, joined, decrypt, repair);
      if fate.Appended? {
        var plain := decrypt(repair).value;
        EditFields(plain, GetStr(plain, "event_id").value, Shown(plain, GetStr(plain, "type").value).value);
        assert GetStr(fate.edit, "event_id") == Some(GetStr(plain, "event_id").value + "~decrypted");
      }
    }
  }

  /** Each joined room's timeline comes out one to one: the same event IDs in the same
      order, only encrypted events changed, and after them nothing but repairing edits. */
  lemma TimelineOneToOne(env: Env, body: Json, q: Queue, joined: map<string, Option<Json>>, room: string)
    requires WellShaped(body) && Faithful(env) && Markable(DecryptorOf(env))
    requires WellShaped(RewriteBody(env, body)) && room in JoinRooms(body)
    ensures var p := Injected(RewriteBody(env, body), AfterTake(q), joined, DecryptorOf(env), Taken(q));
            var was, now := Events(JoinRooms(body)[room]),
                            Events(match Get(Obj(JoinRooms(p.body)), room) case Some(e) => e case None => Null);
            && room in JoinRooms(p.body)
            && |was| <= |now|
            && (forall i :: 0 <= i < |was| ==>
                  && Get(now[i], "event_id") == Get(was[i], "event_id")
                  && (GetStr(was[i], "type") != Some(ENCRYPTED) || !env.parses(room) ==> now[i] == was[i]))
            && (forall i :: |was| <= i < |now| ==> IsEdit(now[i]))
  {
    var mid, decrypt := RewriteBody(env, body), DecryptorOf(env);
    BodyRewritten(env, body);
    InjectConserves(mid, AfterTake(q), joined, decrypt, Taken(q));
    var p := Injected(mid, AfterTake(q), joined, decrypt, Taken(q));
    var edits := EditsFor(mid, joined, decrypt, Taken(q), room);
    EditsAreEdits(mid, joined, decrypt, Taken(q), room);
    assert RoomDelivers(mid, p.body, joined, room, edits);
    var was, then_ := Events(JoinRooms(body)[room]), Events(JoinRooms(mid)[room]);
    RoomOneToOne(env, room, JoinRooms(body)[room]);
    assert Events(JoinRooms(p.body)[room]) == then_ + edits;
    forall i | |was| <= i < |then_ + edits|
      ensures IsEdit((then_ + edits)[i])
    {
      assert (then_ + edits)[i] in edits;
    }
  }

  lemma LeftRoomsRewritten(env: Env, body: Json)
    requires WellShaped(body)
    ensures WellShaped(RewriteBody(env, body))
    ensures SectionRooms(RewriteBody(env, body), "leave") == RewriteRooms(env, SectionRooms(body, "leave"))
  {
    var mid := RewriteSection(env, body, "join");
    SectionRewritten(env, body, "join");
    SectionRewritten(env, mid, "leave");
    assert Get2(mid, "rooms", "leave") == Get2(body, "rooms", "leave");
    assert SectionRooms(RewriteSection(env, mid, "leave"), "leave") == RewriteRooms(env, SectionRooms(mid, "leave"));
  }

  /** Each left room's timeline comes out one to one too, with nothing after it. */
  lemma LeftTimelineOneToOne(env: Env, body: Json, q: Queue, joined: map<string, Option<Json>>, room: string)
    requires WellShaped(body) && Faithful(env) && Markable(DecryptorOf(env))
    requires WellShaped(RewriteBody(env, body)) && room in SectionRooms(body, "leave")
    ensures var p := Injected(RewriteBody(env, body), AfterTake(q), joined, DecryptorOf(env), Taken(q));
            && room in SectionRooms(p.body, "leave")
            && SectionRooms(p.body, "leave")[room] == RewriteRoom(env, room, SectionRooms(body, "leave")[room])
            && (var was, now := Events(SectionRooms(body, "leave")[room]), Events(SectionRooms(p.body, "leave")[room]);
                && |now| == |was|
                && forall i :: 0 <= i < |was| ==>
                     && Get(now[i], "event_id") == Get(was[i], "event_id")
                     && (GetStr(was[i], "type") != Some(ENCRYPTED) || !env.parses(room) ==> now[i] == was[i]))
  {
    var mid := RewriteBody(env, body);
    LeftRoomsRewritten(env, body);
    InjectConserves(mid, AfterTake(q), joined, DecryptorOf(env), Taken(q));
    var p := Injected(mid, AfterTake(q), joined, DecryptorOf(env), Taken(q));
    assert SameButRooms(p.body, mid);
    assert Get2(p.body, "rooms", "leave") == Get2(mid, "rooms", "leave");
    RoomOneToOne(env, room, SectionRooms(body, "leave")[room]);
  }

  lemma RoomOneToOne(env: Env, room: string, entry: Json)
    requires Faithful(env)
    ensures var was, now := Events(entry), Events(RewriteRoom(env, room, entry));
            && |now| == |was|
            && forall i :: 0 <= i < |was| ==>
                 && Get(now[i], "event_id") == Get(was[i], "event_id")
                 && (GetStr(was[i], "type") != Some(ENCRYPTED) || !env.parses(room) ==> now[i] == was[i])
  {
    var was := Events(entry);
    forall i | 0 <= i < |was|
      ensures Get(RewriteEvent(env, room, was[i]), "event_id") == Get(was[i], "event_id")
              && (GetStr(was[i], "type") != Some(ENCRYPTED) ==> RewriteEvent(env, room, was[i]) == was[i])
    {
      RewriteKeepsId(env, room, was[i]);
    }
  }

  // ----- What is remembered

  /** The IDs a series of tracks adds to the order. */
  function Inserted(q: Queue, placed: seq<Placed>): seq<string> {
    if placed == [] then []
    else
      var before := placed[..|placed| - 1];
      var id := GetStr(placed[|placed| - 1].event, "event_id");
      if id.Some? && id.value !in TrackAll(q, before).pending then Inserted(q, before) + [id.value]
      else Inserted(q, before)
  }

  function Placement(order: seq<string>, inserted: seq<string>): seq<string> {
    if inserted == [] then order else Last(MAX_PENDING, order + inserted)
  }

  lemma PlacementGrows(order: seq<string>, inserted: seq<string>, id: string)
    ensures Last(MAX_PENDING, Placement(order, inserted) + [id]) == Placement(order, inserted + [id])
  {
    if inserted == [] {
      assert inserted + [id] == [id];
    } else {
      LastOfLast(MAX_PENDING, order + inserted, [id]);
      assert order + inserted + [id] == order + (inserted + [id]);
    }
  }

  /** Tracking keeps the newest MAX_PENDING places, whatever state the queue is in. */
  lemma {:induction false} TrackAllOrder(q: Queue, placed: seq<Placed>)
    ensures |Inserted(q, placed)| <= |placed| && (q.Consistent() ==> TrackAll(q, placed).Consistent())
    ensures TrackAll(q, placed).order == Placement(q.order, Inserted(q, placed))
  {
    if placed == [] {
    } else {
      var before, p := placed[..|placed| - 1], placed[|placed| - 1];
      TrackAllOrder(q, before);
      var q1 := TrackAll(q, before);
      TrackBounds(q1, p.room, p.event, p.session);
      if q.Consistent() {
        TrackKeeps(q1, p.room, p.event, p.session);
      }
      var id := GetStr(p.event, "event_id");
      if id.Some? && id.value !in q1.pending {
        PlacementGrows(q.order, Inserted(q, before), id.value);
      }
    }
  }

  lemma {:induction false} TrackAllOnePlace(q: Queue, placed: seq<Placed>, id: string)
    requires OnePlace(q, id)
    ensures OnePlace(TrackAll(q, placed), id)
    ensures id in TrackAll(q, placed).pending <==> id in TrackAll(q, placed).order
  {
    if placed == [] {
    } else {
      var before, p := placed[..|placed| - 1], placed[|placed| - 1];
      TrackAllOnePlace(q, before, id);
      TrackOnePlace(TrackAll(q, before), p.room, p.event, p.session, id);
    }
    assert id in TrackAll(q, placed).order <==> multiset(TrackAll(q, placed).order)[id] > 0;
  }

  /** What is delivered has a place, old or new. */
  lemma {:induction false} DeliveredIsPlaced(q: Queue, placed: seq<Placed>, i: nat)
    requires i < |placed| && GetStr(placed[i].event, "event_id").Some?
    requires OnePlace(q, GetStr(placed[i].event, "event_id").value)
    ensures GetStr(placed[i].event, "event_id").value in q.order + Inserted(q, placed)
    decreases |placed|
  {
    var before, id := placed[..|placed| - 1], GetStr(placed[i].event, "event_id").value;
    if i < |placed| - 1 {
      DeliveredIsPlaced(q, before, i);
    } else if id in TrackAll(q, before).pending {
      TrackAllOrder(q, before);
      TrackAllOnePlace(q, before, id);
      PlacementWithin(q.order, Inserted(q, before), id);
    }
  }

  lemma PlacementWithin(order: seq<string>, inserted: seq<string>, id: string)
    requires id in Placement(order, inserted)
    ensures id in order + inserted
  {
  }

  lemma PlacementHolds(order: seq<string>, inserted: seq<string>, id: string)
    requires id in order + inserted
    ensures id in Placement(order, inserted) <==> inserted == [] || Behind(order + inserted, id) < MAX_PENDING
  {
    InLast(MAX_PENDING, order + inserted, id);
    assert order + [] == order;
  }

  /** Just before injection, a delivered placeholder is pending if and only if nothing was
      newly queued, or fewer than MAX_PENDING places are behind its newest one: a delivery
      while it is pending gives it no newer place. It takes one thing of the queue, that this
      event has one place at most. */
  lemma DeliveredPendsExactlyIf(q: Queue, placed: seq<Placed>, i: nat)
    requires i < |placed| && GetStr(placed[i].event, "event_id").Some?
    requires OnePlace(q, GetStr(placed[i].event, "event_id").value)
    ensures var id, inserted := GetStr(placed[i].event, "event_id").value, Inserted(q, placed);
            id in TrackAll(q, placed).pending
            <==> inserted == [] || Behind(q.order + inserted, id) < MAX_PENDING
  {
    var id := GetStr(placed[i].event, "event_id").value;
    TrackAllOrder(q, placed);
    TrackAllOnePlace(q, placed, id);
    DeliveredIsPlaced(q, placed, i);
    PlacementHolds(q.order, Inserted(q, placed), id);
  }

  /** In particular, the newest MAX_PENDING of those newly queued are all pending. */
  lemma NewestQueuedPend(q: Queue, placed: seq<Placed>, k: nat)
    requires k < |Inserted(q, placed)| && |Inserted(q, placed)| - k <= MAX_PENDING
    requires OnePlace(q, Inserted(q, placed)[k])
    ensures Inserted(q, placed)[k] in TrackAll(q, placed).pending
  {
    TrackAllOrder(q, placed);
    TrackAllOnePlace(q, placed, Inserted(q, placed)[k]);
    NewestHold(q.order, Inserted(q, placed), k);
  }

  lemma NewestHold(order: seq<string>, inserted: seq<string>, k: nat)
    requires k < |inserted| && |inserted| - k <= MAX_PENDING
    ensures inserted[k] in Placement(order, inserted)
  {
    var all := order + inserted;
    assert all[|order| + k] == inserted[k];
    BehindAtMost(all, |order| + k);
    PlacementHolds(order, inserted, inserted[k]);
  }

  lemma {:induction false} BehindAtMost(s: seq<string>, j: nat)
    requires j < |s|
    ensures Behind(s, s[j]) < |s| - j
    decreases |s|
  {
    if s[|s| - 1] == s[j] {
    } else {
      BehindAtMost(s[..|s| - 1], j);
    }
  }

  /** With a full queue, a placeholder whose place is the oldest is delivered again, the
      next one new: the first is forgotten at once, for all its promise of an update. */
  lemma DeliveredAgainIsForgotten(q: Queue, again: Placed, other: Placed)
    requires |q.order| == MAX_PENDING && q.order[0] in q.pending
    requires GetStr(again.event, "event_id") == Some(q.order[0])
    requires GetStr(other.event, "event_id").Some? && GetStr(other.event, "event_id").value !in q.pending
    ensures q.order[0] in TrackAll(q, [again]).pending
    ensures q.order[0] !in TrackAll(q, [again, other]).pending
  {
    assert [again][..0] == [] && [again, other][..1] == [again];
    assert TrackAll(q, []) == q && TrackAll(q, [again]) == q;
    var id := GetStr(other.event, "event_id").value;
    var full := Requeue(q, PendingRepair(other.room, id, other.session, other.event));
    TrimIsLast(full);
    assert full.order[..1] == [q.order[0]] && q.order[0] in Elems(full.order[..1]);
  }

  // ----- Delivered again while ready

  lemma {:induction false} InjectedKeepsDelivered(body: Json, q: Queue, joined: map<string, Option<Json>>,
                                                  decrypt: Decryptor, repairs: seq<PendingRepair>, id: string)
    requires WellShaped(body) && Markable(decrypt) && q.Covered() && id in DeliveredIds(body)
    ensures var q' := Injected(body, q, joined, decrypt, repairs).q;
            q'.Covered() && (id in q'.pending <==> id in q.pending)
  {
    if repairs == [] {
    } else {
      var before, repair := repairs[..|repairs| - 1], repairs[|repairs| - 1];
      InjectedKeepsDelivered(body, q, joined, decrypt, before, id);
      var p := Injected(body, q, joined, decrypt, before);
      OneTurn(body, p, joined, decrypt, repair);
      if InjectOne(body, p, joined, decrypt, repair).q != p.q {
        RequeueConsistent(p.q, repair);
      }
    }
  }

  /** One repair's turn leaves the queue, or puts it back if the response lacks its event. */
  lemma OneTurn(body: Json, p: Progress, joined: map<string, Option<Json>>, decrypt: Decryptor, repair: PendingRepair)
    requires WellShaped(p.body) && Markable(decrypt)
    ensures var q' := InjectOne(body, p, joined, decrypt, repair).q;
            q' == p.q || (q' == Requeue(p.q, repair) && repair.id !in DeliveredIds(body))
  {
  }

  /** In every interleaving, a pending placeholder that this very response delivers stays
      pending if and only if it was not ready, whether or not its key is there. */
  lemma DeliveredStaysPendingExactlyIf(env: Env, body: Json, q: Queue, joined: map<string, Option<Json>>, id: string)
    requires WellShaped(body) && Markable(DecryptorOf(env)) && q.Covered()
    requires id in q.pending && id in DeliveredIds(body)
    ensures var p := Injected(body, AfterTake(q), joined, DecryptorOf(env), Taken(q));
            && p.q.Covered() && (q.Consistent() ==> p.q.Consistent())
            && (id in p.q.pending <==> !q.IsReady(q.pending[id]))
  {
    TakePartition(q);
    if q.Consistent() {
      TakeConsistent(q);
      InjectKeepsQueue(body, AfterTake(q), joined, DecryptorOf(env), Taken(q));
    }
    InjectedKeepsDelivered(body, AfterTake(q), joined, DecryptorOf(env), Taken(q), id);
  }

  /** The input on which that loses a repair: an event whose key is still missing is ready,
      after a bulk import say, and the response delivers it again. The client is shown its
      placeholder, with the promise of an update, and nothing waits for its key any more. */
  lemma RedeliveredWhileReadyIsLost(env: Env, body: Json, q: Queue, joined: map<string, Option<Json>>, room: string,
                                    i: nat, id: string, reason: string, session: Option<string>)
    requires WellShaped(body) && WellShaped(RewriteBody(env, body)) && Markable(DecryptorOf(env)) && q.Covered()
    requires room in JoinRooms(body) && env.parses(room) && i < |Events(JoinRooms(body)[room])|
    requires GetStr(Events(JoinRooms(body)[room])[i], "event_id") == Some(id)
    requires Decrypt(env, room, Events(JoinRooms(body)[room])[i]) == Undecryptable(reason, session)
    requires id in q.pending && q.IsReady(q.pending[id])
    ensures var p := Injected(RewriteBody(env, body), AfterTake(q), joined, DecryptorOf(env), Taken(q));
            && id !in p.q.pending
            && room in JoinRooms(p.body) && i < |Events(JoinRooms(p.body)[room])|
            && Events(JoinRooms(p.body)[room])[i]
               == Placeholder(Events(JoinRooms(body)[room])[i], reason, session, true)
  {
    var mid := RewriteBody(env, body);
    ShownAsPlaceholder(env, body, room, i, id, reason, session);
    DeliveredStaysPendingExactlyIf(env, mid, q, joined, id);
    InjectedKeepsEvent(mid, AfterTake(q), joined, DecryptorOf(env), Taken(q), room, i);
  }

  lemma ShownAsPlaceholder(env: Env, body: Json, room: string, i: nat, id: string, reason: string,
                           session: Option<string>)
    requires WellShaped(body) && room in JoinRooms(body) && env.parses(room)
    requires i < |Events(JoinRooms(body)[room])|
    requires GetStr(Events(JoinRooms(body)[room])[i], "event_id") == Some(id)
    requires Decrypt(env, room, Events(JoinRooms(body)[room])[i]) == Undecryptable(reason, session)
    ensures var mid := RewriteBody(env, body);
            && room in JoinRooms(mid) && i < |Events(JoinRooms(mid)[room])| && id in DeliveredIds(mid)
            && Events(JoinRooms(mid)[room])[i]
               == Placeholder(Events(JoinRooms(body)[room])[i], reason, session, true)
  {
    var mid, event := RewriteBody(env, body), Events(JoinRooms(body)[room])[i];
    var shown := Placeholder(event, reason, session, true);
    BodyRewritten(env, body);
    var then_ := Events(JoinRooms(mid)[room]);
    assert then_ == RewriteEvents(env, room, Events(JoinRooms(body)[room]));
    PlaceholderFields(event, reason, session, true);
    assert then_[i] == shown && shown in then_ && GetStr(shown, "event_id") == Some(id);
  }

  lemma InjectedKeepsEvent(body: Json, q: Queue, joined: map<string, Option<Json>>, decrypt: Decryptor,
                           repairs: seq<PendingRepair>, room: string, i: nat)
    requires WellShaped(body) && Markable(decrypt)
    requires room in JoinRooms(body) && i < |Events(JoinRooms(body)[room])|
    ensures var p := Injected(body, q, joined, decrypt, repairs);
            && room in JoinRooms(p.body) && i < |Events(JoinRooms(p.body)[room])|
            && Events(JoinRooms(p.body)[room])[i] == Events(JoinRooms(body)[room])[i]
  {
    InjectConserves(body, q, joined, decrypt, repairs);
    var p := Injected(body, q, joined, decrypt, repairs);
    assert RoomDelivers(body, p.body, joined, room, EditsFor(body, joined, decrypt, repairs, room));
  }
}
