/** Which rooms are encrypted, and what a send puts on the wire. */
module Rooms {
  import opened Seqs
  import opened Json

  const ENCRYPTED := "m.room.encrypted"
  const U64 := 0x1_0000_0000_0000_0000

  datatype Settings = Settings(algorithm: string, periodMs: Option<nat>, periodMsgs: Option<nat>)

  function AsU64(v: Option<Json>): Option<nat> {
    if v.Some? && v.value.Num? && 0 <= v.value.n < U64 then Some(v.value.n) else None
  }

  function SettingsFromContent(content: Json): Option<Settings> {
    match GetStr(content, "algorithm")
    case None => None
    case Some(algorithm) =>
      Some(Settings(algorithm, AsU64(Get(content, "rotation_period_ms")), AsU64(Get(content, "rotation_period_msgs"))))
  }

  /** The tracker of one account, with the room settings its crypto store persists. */
  datatype Tracker = Tracker(
    unencrypted: set<string>,
    settings: map<string, Settings>,
    visibility: map<string, string>,
    members: map<string, seq<string>>,
    joined: map<string, Option<Json>>)
  {
    /** No room is both in the negative cache and in the persisted settings. */
    ghost predicate Disjoint() {
      unencrypted !! settings.Keys
    }
  }

  /** The crypto store keeps the settings a room already has, and may refuse new ones. */
  function Persist(t: Tracker, room: string, settings: Settings, accepted: bool): Tracker {
    if accepted && room !in t.settings then t.(settings := t.settings[room := settings]) else t
  }

  /** The settings an event puts in force, if it is an m.room.encryption state event. */
  function SettingsOf(event: Json): Option<Settings> {
    if GetStr(event, "state_key").Some? && GetStr(event, "type") == Some("m.room.encryption")
       && Get(event, "content").Some?
    then SettingsFromContent(Get(event, "content").value)
    else None
  }

  /** What a state event tells the tracker. */
  datatype News = NoNews | Encrypts(settings: Settings) | Shows(visibility: string) | MemberChanges

  function NewsOf(event: Json): News {
    var kind := GetStr(event, "type");
    if GetStr(event, "state_key").None? || kind.None? then NoNews
    else if kind.value == "m.room.encryption" then
      match SettingsOf(event)
      case None => NoNews
      case Some(settings) => Encrypts(settings)
    else if kind.value == "m.room.history_visibility" then
      match AsStr(Get2(event, "content", "history_visibility"))
      case None => NoNews
      case Some(visibility) => Shows(visibility)
    else if kind.value == "m.room.member" then MemberChanges
    else NoNews
  }

  function Heed(t: Tracker, room: string, news: News, accepts: Settings -> bool): Tracker {
    match news
    case NoNews => t
    case Encrypts(settings) =>
      Persist(t.(unencrypted := t.unencrypted - {room}), room, settings, accepts(settings))
    case Shows(visibility) => t.(visibility := t.visibility[room := visibility])
    case MemberChanges => t.(members := t.members - {room})
  }

  function ScanOne(t: Tracker, room: string, event: Json, accepts: Settings -> bool): Tracker {
    Heed(t, room, NewsOf(event), accepts)
  }

  lemma NewsIsSettings(event: Json)
    ensures NewsOf(event).Encrypts? <==> SettingsOf(event).Some?
    ensures NewsOf(event).Encrypts? ==> SettingsOf(event).value == NewsOf(event).settings
  {
  }

  /** An encryption event's content by its keys: an algorithm, and two periods where they are
      numbers of 64 bits. */
  lemma SettingsAre(content: Json)
    ensures SettingsFromContent(content).Some? <==> GetStr(content, "algorithm").Some?
    ensures SettingsFromContent(content).Some? ==>
              var s := SettingsFromContent(content).value;
              && Some(s.algorithm) == GetStr(content, "algorithm")
              && (forall n: nat :: s.periodMs == Some(n)
                    <==> Get(content, "rotation_period_ms") == Some(Num(n)) && n < 0x1_0000_0000_0000_0000)
              && (forall n: nat :: s.periodMsgs == Some(n)
                    <==> Get(content, "rotation_period_msgs") == Some(Num(n)) && n < 0x1_0000_0000_0000_0000)
  {
  }

  /** What an event is news of, by its keys: nothing unless it is a state event. */
  lemma NewsAre(event: Json)
    ensures var kind, content := GetStr(event, "type"), Get(event, "content");
            match NewsOf(event)
            case Encrypts(settings) =>
              && GetStr(event, "state_key").Some? && kind == Some("m.room.encryption")
              && content.Some? && SettingsFromContent(content.value) == Some(settings)
            case Shows(visibility) =>
              && GetStr(event, "state_key").Some? && kind == Some("m.room.history_visibility")
              && content.Some? && GetStr(content.value, "history_visibility") == Some(visibility)
            case MemberChanges => GetStr(event, "state_key").Some? && kind == Some("m.room.member")
            case NoNews =>
              || GetStr(event, "state_key").None?
              || kind !in {Some("m.room.encryption"), Some("m.room.history_visibility"), Some("m.room.member")}
              || (kind == Some("m.room.encryption")
                  && (content.None? || GetStr(content.value, "algorithm").None?))
              || (kind == Some("m.room.history_visibility")
                  && (content.None? || GetStr(content.value, "history_visibility").None?))
  {
  }

  function Scanned(t: Tracker, room: string, events: seq<Json>, accepts: Settings -> bool): Tracker {
    if events == [] then t
    else ScanOne(Scanned(t, room, events[..|events| - 1], accepts), room, events[|events| - 1], accepts)
  }

  /** The client is in the room, with these unread counts or else the last ones. */
  function Joined(t: Tracker, room: string, unread: Option<Json>): Tracker {
    t.(joined := t.joined[room := if unread.Some? then unread
                                  else if room in t.joined then t.joined[room] else None])
  }

  function Left(t: Tracker, room: string): Tracker {
    t.(joined := t.joined - {room})
  }

  /** A join gives the room its unread counts, or leaves it the last ones; a leave takes them
      away; and that is all. */
  lemma JoinsAndLeaves(t: Tracker, room: string, unread: Option<Json>, r: string)
    ensures var t' := Joined(t, room, unread);
            && t' == t.(joined := t'.joined)
            && room in t'.joined
            && (unread.Some? ==> t'.joined[room] == unread)
            && (unread.None? && room in t.joined ==> t'.joined[room] == t.joined[room])
            && (unread.None? && room !in t.joined ==> t'.joined[room] == None)
            && (r != room ==> (r in t'.joined <==> r in t.joined)
                              && (r in t.joined ==> t'.joined[r] == t.joined[r]))
    ensures var t' := Left(t, room);
            && t' == t.(joined := t'.joined)
            && room !in t'.joined
            && (r != room ==> (r in t'.joined <==> r in t.joined)
                              && (r in t.joined ==> t'.joined[r] == t.joined[r]))
  {
  }

  // ----- Is this room encrypted?

  /** What the homeserver says of a room's m.room.encryption state. */
  datatype Answer = NotFound | Failed | Content(content: Json)

  /** What can be said without asking the homeserver; nothing if it has to be asked. */
  function Known(t: Tracker, room: string): Option<bool> {
    if room in t.unencrypted then Some(false)
    else if room in t.settings then Some(true)
    else None
  }

  function Learned(t: Tracker, room: string, answer: Answer, accepts: Settings -> bool): (Tracker, Option<bool>) {
    match answer
    case NotFound => (t.(unencrypted := t.unencrypted + {room}), Some(false))
    case Failed => (t, None)
    case Content(content) =>
      match SettingsFromContent(content)
      case None => (t, None)
      case Some(settings) =>
        (Persist(t.(unencrypted := t.unencrypted - {room}), room, settings, accepts(settings)), Some(true))
  }

  // ----- Sending

  /** The content of an event on the wire. */
  datatype Payload = Plain(content: Json) | Megolm(room: string, kind: string, content: Json)

  datatype Wire =
    | Nothing
    | Untouched
    | Sent(kind: string, txn: string, payload: Payload)

  class RoomTracker {
    var unencrypted: set<string>
    var settings: map<string, Settings>
    var visibility: map<string, string>
    var members: map<string, seq<string>>
    var joined: map<string, Option<Json>>

    function View(): Tracker
      reads this
    {
      Tracker(unencrypted, settings, visibility, members, joined)
    }

    constructor (persisted: map<string, Settings>)
      ensures View() == Tracker({}, persisted, map[], map[], map[]) && View().Disjoint()
    {
      unencrypted, settings, visibility, members, joined := {}, persisted, map[], map[], map[];
    }

    method SetRoomSettings(room: string, s: Settings, accepted: bool)
      modifies this
      ensures View() == Persist(old(View()), room, s, accepted)
    {
      if accepted && room !in settings {
        settings := settings[room := s];
      }
    }

    method NoteJoined(room: string, unread: Option<Json>)
      modifies this
      ensures View() == Joined(old(View()), room, unread)
    {
      if room !in joined {
        joined := joined[room := None];
      }
      if unread.Some? {
        joined := joined[room := unread];
      }
    }

    method NoteLeft(room: string)
      modifies this
      ensures View() == Left(old(View()), room)
    {
      joined := joined - {room};
    }

    method ScanStateEvents(room: string, events: seq<Json>, accepts: Settings -> bool)
      modifies this
      ensures View() == Scanned(old(View()), room, events, accepts)
      ensures old(View()).Disjoint() ==> View().Disjoint()
    {
      ghost var before := View();
      for i := 0 to |events|
        invariant View() == Scanned(old(View()), room, events[..i], accepts)
      {
        assert events[..i + 1][..i] == events[..i];
        var event := events[i];
        var kind := GetStr(event, "type");
        if GetStr(event, "state_key").None? || kind.None? {
          continue;
        }
        if kind.value == "m.room.encryption" {
          var content := Get(event, "content");
          if content.None? {
            continue;
          }
          var s := SettingsFromContent(content.value);
          if s.None? {
            continue;
          }
          unencrypted := unencrypted - {room};
          SetRoomSettings(room, s.value, accepts(s.value));
        } else if kind.value == "m.room.history_visibility" {
          var v := AsStr(Get2(event, "content", "history_visibility"));
          if v.Some? {
            visibility := visibility[room := v.value];
          }
        } else if kind.value == "m.room.member" {
          members := members - {room};
        }
      }
      assert events[..|events|] == events;
      if before.Disjoint() {
        ScanKeepsDisjoint(before, room, events, accepts);
      }
    }

    /** Nothing is returned where the state could not be determined; `storeOk` says
        whether the crypto store could be read. */
    method IsRoomEncrypted(room: string, storeOk: bool, answer: Answer, accepts: Settings -> bool)
      returns (encrypted: Option<bool>)
      modifies this
      ensures if room in old(unencrypted) then encrypted == Some(false) && View() == old(View())
              else if !storeOk then encrypted == None && View() == old(View())
              else if room in old(settings) then encrypted == Some(true) && View() == old(View())
              else
                && (View(), encrypted) == Learned(old(View()), room, answer, accepts)
                && (encrypted == Some(false) <==> answer.NotFound?)
                && (encrypted == Some(true) <==> answer.Content? && GetStr(answer.content, "algorithm").Some?)
                && unencrypted == (if answer.NotFound? then old(unencrypted) + {room} else old(unencrypted))
                && settings
                   == (if encrypted == Some(true) && accepts(SettingsFromContent(answer.content).value)
                       then old(settings)[room := SettingsFromContent(answer.content).value]
                       else old(settings))
                && visibility == old(visibility) && members == old(members) && joined == old(joined)
    {
      if room in unencrypted {
        return Some(false);
      }
      if !storeOk {
        return None;
      }
      if room in settings {
        return Some(true);
      }
      match answer
      case NotFound =>
        unencrypted := unencrypted + {room};
        return Some(false);
      case Failed =>
        return None;
      case Content(content) =>
        var s := SettingsFromContent(content);
        if s.None? {
          return None;
        }
        unencrypted := unencrypted - {room};
        SetRoomSettings(room, s.value, accepts(s.value));
        return Some(true);
    }

    /** `body` is the request's content if it is JSON; `forRoom` and `forPlain` prepare
        media for an encrypted and an unencrypted room, the latter if it can; `encrypts`
        says whether sharing the key and encrypting succeed. */
    method HandleSend(parses: bool, room: string, kind: string, txn: string, body: Option<Json>,
                      storeOk: bool, answer: Answer, accepts: Settings -> bool,
                      forRoom: Json -> Json, forPlain: Json -> Option<Json>, encrypts: bool)
      returns (wire: Wire)
      modifies this
      ensures !parses || kind == ENCRYPTED ==> wire == Untouched && View() == old(View())
      ensures parses && kind != ENCRYPTED ==>
                wire == SendWire(old(View()), room, kind, txn, body, storeOk, answer, forRoom, forPlain, encrypts)
                && View() == (if Known(old(View()), room).Some? || !storeOk then old(View())
                              else Learned(old(View()), room, answer, accepts).0)
      // What goes out, in terms of the room's state and the answers alone.
      ensures parses && kind != ENCRYPTED ==>
                var encrypted :=
                  && room !in old(unencrypted) && storeOk
                  && (room in old(settings) || (answer.Content? && GetStr(answer.content, "algorithm").Some?));
                var plain := room in old(unencrypted) || (storeOk && room !in old(settings) && answer.NotFound?);
                if encrypted && body.Some? && encrypts then
                  wire == Sent("m.room.encrypted", txn, Megolm(room, kind, forRoom(body.value)))
                else if plain && body.Some? && forPlain(body.value).Some? then
                  wire == Sent(kind, txn, Plain(forPlain(body.value).value))
                else wire == Nothing
      ensures old(View()).Disjoint() ==> View().Disjoint()
    {
      if !parses || kind == ENCRYPTED {
        return Untouched;
      }
      var encrypted := IsRoomEncrypted(room, storeOk, answer, accepts);
      if encrypted.None? || body.None? {
        return Nothing;
      }
      if encrypted.value {
        var content := forRoom(body.value);
        if !encrypts {
          return Nothing;
        }
        return Sent(ENCRYPTED, txn, Megolm(room, kind, content));
      }
      var content := forPlain(body.value);
      if content.None? {
        return Nothing;
      }
      return Sent(kind, txn, Plain(content.value));
    }
  }

  /** Whether a room counts as encrypted, if that can be determined. */
  function Decision(t: Tracker, room: string, storeOk: bool, answer: Answer): Option<bool> {
    if room in t.unencrypted then Some(false)
    else if !storeOk then None
    else if room in t.settings then Some(true)
    else
      match answer
      case NotFound => Some(false)
      case Failed => None
      case Content(content) => if SettingsFromContent(content).Some? then Some(true) else None
  }

  /** What a send of a parsed, not yet encrypted event puts on the wire. */
  function SendWire(t: Tracker, room: string, kind: string, txn: string, body: Option<Json>, storeOk: bool,
                    answer: Answer, forRoom: Json -> Json, forPlain: Json -> Option<Json>, encrypts: bool): Wire {
    var encrypted := Decision(t, room, storeOk, answer);
    if encrypted.None? then Nothing
    else ForwardWire(encrypted.value, room, kind, txn, body, forRoom, forPlain, encrypts)
  }

  /** What is forwarded, once it is decided whether the room is encrypted. */
  function ForwardWire(encrypted: bool, room: string, kind: string, txn: string, body: Option<Json>,
                       forRoom: Json -> Json, forPlain: Json -> Option<Json>, encrypts: bool): Wire {
    if body.None? then Nothing
    else if encrypted then
      if encrypts then Sent(ENCRYPTED, txn, Megolm(room, kind, forRoom(body.value))) else Nothing
    else
      match forPlain(body.value)
      case None => Nothing
      case Some(content) => Sent(kind, txn, Plain(content))
  }

  // ----- Scans

  /** Between two trackers the settings only grow, and no other room is touched. */
  ghost predicate Settles(t: Tracker, t': Tracker, room: string) {
    && (forall r :: r in t.settings ==> r in t'.settings && t'.settings[r] == t.settings[r])
    && t'.settings.Keys <= t.settings.Keys + {room}
    && t'.unencrypted - {room} == t.unencrypted - {room}
    && t'.joined == t.joined
  }

  lemma OneFrame(t: Tracker, room: string, event: Json, accepts: Settings -> bool)
    ensures Settles(t, ScanOne(t, room, event, accepts), room)
  {
    HeedOwn(t, room, NewsOf(event), accepts);
  }

  lemma SettlesOn(a: Tracker, b: Tracker, c: Tracker, room: string)
    requires Settles(a, b, room) && Settles(b, c, room)
    ensures Settles(a, c, room)
  {
  }

  lemma {:induction false} ScanFrame(t: Tracker, room: string, events: seq<Json>, accepts: Settings -> bool)
    ensures Settles(t, Scanned(t, room, events, accepts), room)
  {
    if events == [] {
    } else {
      var before, event := events[..|events| - 1], events[|events| - 1];
      var t1 := Scanned(t, room, before, accepts);
      ScanFrame(t, room, before, accepts);
      OneFrame(t1, room, event, accepts);
      SettlesOn(t, t1, ScanOne(t1, room, event, accepts), room);
    }
  }

  /** Does any of the events put settings in force that `accepts` lets through? */
  ghost predicate AnyAccepted(events: seq<Json>, accepts: Settings -> bool) {
    exists e :: e in events && SettingsOf(e).Some? && accepts(SettingsOf(e).value)
  }

  ghost predicate AnySettings(events: seq<Json>) {
    exists e :: e in events && SettingsOf(e).Some?
  }

  lemma AnyOneMore(before: seq<Json>, event: Json, accepts: Settings -> bool)
    ensures AnySettings(before + [event]) <==> AnySettings(before) || SettingsOf(event).Some?
    ensures AnyAccepted(before + [event], accepts)
            <==> AnyAccepted(before, accepts) || (SettingsOf(event).Some? && accepts(SettingsOf(event).value))
  {
    var events := before + [event];
    assert event in events && forall e :: e in before ==> e in events;
  }

  lemma OneSettles(t: Tracker, room: string, event: Json, accepts: Settings -> bool)
    ensures var t' := ScanOne(t, room, event, accepts);
            && (room in t'.settings
                <==> room in t.settings || (SettingsOf(event).Some? && accepts(SettingsOf(event).value)))
            && (room in t'.unencrypted <==> room in t.unencrypted && SettingsOf(event).None?)
  {
    NewsIsSettings(event);
  }

  /** Scanning settles a room: its settings stay what they were or become accepted
      ones, and an encryption event, accepted or not, ends the negative cache. */
  lemma {:induction false} ScanSettles(t: Tracker, room: string, events: seq<Json>, accepts: Settings -> bool)
    ensures room in Scanned(t, room, events, accepts).settings
            <==> room in t.settings || AnyAccepted(events, accepts)
    ensures room in Scanned(t, room, events, accepts).unencrypted
            <==> room in t.unencrypted && !AnySettings(events)
  {
    if events == [] {
    } else {
      var before, event := events[..|events| - 1], events[|events| - 1];
      ScanSettles(t, room, before, accepts);
      OneSettles(Scanned(t, room, before, accepts), room, event, accepts);
      AnyOneMore(before, event, accepts);
      assert events == before + [event];
    }
  }

  lemma ScanKeepsDisjoint(t: Tracker, room: string, events: seq<Json>, accepts: Settings -> bool)
    requires t.Disjoint()
    ensures Scanned(t, room, events, accepts).Disjoint()
  {
    ScanFrame(t, room, events, accepts);
    ScanSettles(t, room, events, accepts);
    var t' := Scanned(t, room, events, accepts);
    if AnyAccepted(events, accepts) {
      var e :| e in events && SettingsOf(e).Some? && accepts(SettingsOf(e).value);
      assert AnySettings(events);
    }
    forall r | r in t'.unencrypted && r != room
      ensures r !in t'.settings
    {
      assert r in t'.unencrypted - {room};
    }
  }

  // ----- One room's part of the tracker

  function At<V>(m: map<string, V>, room: string): Option<V> {
    if room in m then Some(m[room]) else None
  }

  /** Two trackers know the same of a room. */
  predicate AgreeOn(a: Tracker, b: Tracker, room: string) {
    && (room in a.unencrypted <==> room in b.unencrypted)
    && At(a.settings, room) == At(b.settings, room)
    && At(a.visibility, room) == At(b.visibility, room)
    && At(a.members, room) == At(b.members, room)
    && At(a.joined, room) == At(b.joined, room)
  }

  lemma HeedIsLocal(t: Tracker, room: string, news: News, accepts: Settings -> bool, r: string)
    requires r != room
    ensures AgreeOn(Heed(t, room, news, accepts), t, r)
  {
  }

  lemma HeedReadsOwnRoom(t: Tracker, u: Tracker, room: string, news: News, accepts: Settings -> bool)
    requires AgreeOn(t, u, room)
    ensures AgreeOn(Heed(t, room, news, accepts), Heed(u, room, news, accepts), room)
  {
    HeedOwn(t, room, news, accepts);
    HeedOwn(u, room, news, accepts);
  }

  /** What a room's news leaves of what the tracker knows of the room. */
  lemma HeedOwn(t: Tracker, room: string, news: News, accepts: Settings -> bool)
    ensures var t' := Heed(t, room, news, accepts);
            && (room in t'.unencrypted <==> room in t.unencrypted && !news.Encrypts?)
            && At(t'.settings, room)
               == (if news.Encrypts? && accepts(news.settings) && room !in t.settings then Some(news.settings)
                   else At(t.settings, room))
            && At(t'.visibility, room) == (if news.Shows? then Some(news.visibility) else At(t.visibility, room))
            && At(t'.members, room) == (if news.MemberChanges? then None else At(t.members, room))
            && t'.joined == t.joined
  {
  }

  /** A scan concerns its own room alone... */
  lemma {:induction false} ScanIsLocal(t: Tracker, room: string, events: seq<Json>, accepts: Settings -> bool,
                                       r: string)
    requires r != room
    ensures AgreeOn(Scanned(t, room, events, accepts), t, r)
  {
    if events == [] {
    } else {
      var before := events[..|events| - 1];
      ScanIsLocal(t, room, before, accepts, r);
      HeedIsLocal(Scanned(t, room, before, accepts), room, NewsOf(events[|events| - 1]), accepts, r);
    }
  }

  /** ...and depends on nothing but what the tracker knows of that room. */
  lemma {:induction false} ScanReadsOwnRoom(t: Tracker, u: Tracker, room: string, events: seq<Json>,
                                            accepts: Settings -> bool)
    requires AgreeOn(t, u, room)
    ensures AgreeOn(Scanned(t, room, events, accepts), Scanned(u, room, events, accepts), room)
  {
    if events == [] {
    } else {
      var before := events[..|events| - 1];
      ScanReadsOwnRoom(t, u, room, before, accepts);
      HeedReadsOwnRoom(Scanned(t, room, before, accepts), Scanned(u, room, before, accepts), room,
                       NewsOf(events[|events| - 1]), accepts);
    }
  }

  // ----- What plain content needs

  /** Plain content goes out only to a room known to be unencrypted or just found to
      be; where the state cannot be determined, nothing goes out. */
  lemma PlainOnlyIfDenied(t: Tracker, room: string, kind: string, txn: string, body: Option<Json>, storeOk: bool,
                          answer: Answer, forRoom: Json -> Json, forPlain: Json -> Option<Json>, encrypts: bool)
    ensures var wire := SendWire(t, room, kind, txn, body, storeOk, answer, forRoom, forPlain, encrypts);
            && (wire.Sent? && wire.payload.Plain? ==>
                  room in t.unencrypted || (storeOk && room !in t.settings && answer.NotFound?))
            && (room !in t.unencrypted && room !in t.settings && answer.Failed? ==> wire == Nothing)
            && (room !in t.unencrypted && !storeOk ==> wire == Nothing)
            && (kind != ENCRYPTED && wire.Sent? ==> (wire.kind == ENCRYPTED <==> wire.payload.Megolm?))
  {
  }
}
