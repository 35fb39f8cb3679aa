/** Appending the replacing edits to a client's /sync response. */
module Inject {
  import opened Seqs
  import opened Json
  import opened Edits
  import opened RepairQueue

  // ----- The body of a /sync response

  function JoinRooms(body: Json): map<string, Json> {
    match Get2(body, "rooms", "join") case Some(Obj(rooms)) => rooms case _ => map[]
  }

  function Events(room: Json): seq<Json> {
    match Get2(room, "timeline", "events") case Some(Arr(events)) => events case _ => []
  }

  /** A body that indexing by key does not panic on. */
  predicate WellShaped(body: Json) {
    body.Obj? ==>
      && Open(Slot(body, "rooms"))
      && Open(Slot(Slot(body, "rooms"), "join"))
      && forall r :: r in JoinRooms(body) ==>
           Open(JoinRooms(body)[r]) && Open(Slot(JoinRooms(body)[r], "timeline"))
  }

  function DeliveredIds(body: Json): set<string> {
    set r, e | r in JoinRooms(body) && e in Events(JoinRooms(body)[r]) && GetStr(e, "event_id").Some?
      :: GetStr(e, "event_id").value
  }

  /** The entry made for a room that the response lacks. */
  function FreshEntry(unread: Option<Json>): Json {
    var entry := map["timeline" := Obj(map["events" := Arr([]), "limited" := Bool(false)])];
    Obj(if unread.Some? then entry["unread_notifications" := unread.value] else entry)
  }

  function PushEvent(entry: Json, event: Json): Json
    requires Open(entry) && Open(Slot(entry, "timeline"))
  {
    Put(entry, "timeline", Put(Slot(entry, "timeline"), "events", Arr(Events(entry) + [event])))
  }

  function WithRoom(body: Json, room: string, entry: Json): Json
    requires body.Obj? && WellShaped(body)
  {
    var rooms := Slot(body, "rooms");
    Put(body, "rooms", Put(rooms, "join", Put(Slot(rooms, "join"), room, entry)))
  }

  /** May an event still go to this room: the response carries it, or the client is in it? */
  predicate Reachable(body: Json, joined: map<string, Option<Json>>, room: string) {
    body.Obj? && (room in JoinRooms(body) || room in joined)
  }

  function EntryOf(body: Json, joined: map<string, Option<Json>>, room: string): Json
    requires Reachable(body, joined, room)
  {
    if room in JoinRooms(body) then JoinRooms(body)[room] else FreshEntry(joined[room])
  }

  function PushInto(body: Json, joined: map<string, Option<Json>>, room: string, event: Json): Option<Json>
    requires WellShaped(body)
  {
    if !Reachable(body, joined, room) then None
    else
      FreshIsOpen(if room in joined then joined[room] else None);
      Some(WithRoom(body, room, PushEvent(EntryOf(body, joined, room), event)))
  }

  lemma FreshIsOpen(unread: Option<Json>)
    ensures FreshEntry(unread).Obj? && Open(Slot(FreshEntry(unread), "timeline"))
    ensures Events(FreshEntry(unread)) == []
  {
  }

  /** Two room entries differ in their timeline events at most. */
  ghost predicate SameButEvents(a: Json, b: Json) {
    && (forall key :: key != "timeline" ==> Get(a, key) == Get(b, key))
    && (forall key :: key != "events" ==> Get2(a, "timeline", key) == Get2(b, "timeline", key))
  }

  /** Two bodies differ in their joined rooms at most. */
  ghost predicate SameButRooms(a: Json, b: Json) {
    && (a.Obj? <==> b.Obj?)
    && (!a.Obj? ==> a == b)
    && (forall key :: key != "rooms" ==> Get(a, key) == Get(b, key))
    && (forall key :: key != "join" ==> Get2(a, "rooms", key) == Get2(b, "rooms", key))
  }

  lemma PushedEvent(entry: Json, event: Json)
    requires Open(entry) && Open(Slot(entry, "timeline"))
    ensures Events(PushEvent(entry, event)) == Events(entry) + [event]
    ensures SameButEvents(PushEvent(entry, event), entry)
    ensures PushEvent(entry, event).Obj? && Open(Slot(PushEvent(entry, event), "timeline"))
  {
  }

  lemma PutRoom(body: Json, room: string, entry: Json)
    requires body.Obj? && WellShaped(body)
    requires Open(entry) && Open(Slot(entry, "timeline"))
    ensures var body' := WithRoom(body, room, entry);
            JoinRooms(body') == JoinRooms(body)[room := entry] && SameButRooms(body', body) && WellShaped(body')
  {
  }

  /** A push appends one event to one room, which may be a new entry, and does no more. */
  lemma Pushed(body: Json, joined: map<string, Option<Json>>, room: string, event: Json)
    requires WellShaped(body) && Reachable(body, joined, room)
    ensures var pushed := PushInto(body, joined, room, event);
            && pushed.Some? && WellShaped(pushed.value) && SameButRooms(pushed.value, body)
            && JoinRooms(pushed.value)
               == JoinRooms(body)[room := PushEvent(EntryOf(body, joined, room), event)]
            && Events(JoinRooms(pushed.value)[room]) == Events(EntryOf(body, joined, room)) + [event]
            && SameButEvents(JoinRooms(pushed.value)[room], EntryOf(body, joined, room))
  {
    FreshIsOpen(if room in joined then joined[room] else None);
    var entry := EntryOf(body, joined, room);
    PushedEvent(entry, event);
    PutRoom(body, room, PushEvent(entry, event));
  }

  // ----- The fate of a taken repair

  datatype Fate = InResponse | Requeued | NoEdit | NotInRoom | Appended(edit: Json)

  /** Decrypting a repair's event: the plaintext event, or nothing. */
  type Decryptor = PendingRepair -> Option<Json>

  ghost predicate Markable(decrypt: Decryptor) {
    forall r :: decrypt(r).Some? ==> MarkerOpen(decrypt(r).value)
  }

  ghost function FateOf(body: Json, joined: map<string, Option<Json>>, decrypt: Decryptor, repair: PendingRepair): Fate
    requires Markable(decrypt)
  {
    if repair.id in DeliveredIds(body) then InResponse
    else
      match decrypt(repair)
      case None => Requeued
      case Some(plain) =>
        match SyntheticEdit(plain)
        case None => NoEdit
        case Some(edit) => if Reachable(body, joined, repair.room) then Appended(edit) else NotInRoom
  }

  /** The response, the queue and the count after the given repairs. */
  datatype Progress = Progress(body: Json, q: Queue, count: nat)

  ghost function Injected(body: Json, q: Queue, joined: map<string, Option<Json>>, decrypt: Decryptor,
                          repairs: seq<PendingRepair>): (p: Progress)
    requires WellShaped(body) && Markable(decrypt)
    ensures WellShaped(p.body)
  {
    if repairs == [] then Progress(body, q, 0)
    else
      var p := Injected(body, q, joined, decrypt, repairs[..|repairs| - 1]);
      InjectOne(body, p, joined, decrypt, repairs[|repairs| - 1])
  }

  ghost function InjectOne(body: Json, p: Progress, joined: map<string, Option<Json>>, decrypt: Decryptor,
                           repair: PendingRepair): (p': Progress)
    requires WellShaped(p.body) && Markable(decrypt)
    ensures WellShaped(p'.body)
  {
    if repair.id in DeliveredIds(body) then p
    else
      match decrypt(repair)
      case None => p.(q := Requeue(p.q, repair))
      case Some(plain) =>
        match SyntheticEdit(plain)
        case None => p
        case Some(edit) =>
          match PushInto(p.body, joined, repair.room, edit)
          case None => p
          case Some(body') =>
            Pushed(p.body, joined, repair.room, edit);
            p.(body := body', count := p.count + 1)
  }

  /** One repair's turn; `delivered` are the IDs in the response as it came. */
  method InjectRepair(repairs: RepairQueue, joined: map<string, Option<Json>>, decrypt: Decryptor, ghost body: Json,
                      delivered: set<string>, repair: PendingRepair, body1: Json, ghost count: nat)
    returns (body2: Json, appended: bool)
    requires delivered == DeliveredIds(body) && WellShaped(body1) && Markable(decrypt)
    modifies repairs
    ensures Progress(body2, repairs.View(), if appended then count + 1 else count)
            == InjectOne(body, Progress(body1, old(repairs.View()), count), joined, decrypt, repair)
  {
    body2, appended := body1, false;
    if repair.id in delivered {
      return;
    }
    var plain := decrypt(repair);
    if plain.None? {
      repairs.PutBack(repair);
      return;
    }
    var edit := SyntheticEdit(plain.value);
    if edit.None? {
      return;
    }
    var pushed := PushInto(body1, joined, repair.room, edit.value);
    if pushed.Some? {
      body2, appended := pushed.value, true;
    }
  }

  /** Take what is ready and give each repair its turn: the response, the queue and the count
      end up as `Injected` has them, which `InjectConserves` describes. */
  method InjectRepairs(repairs: RepairQueue, joined: map<string, Option<Json>>, decrypt: Decryptor, body: Json)
    returns (body': Json, repaired: nat)
    requires WellShaped(body) && Markable(decrypt)
    modifies repairs
    ensures var q := old(repairs.View());
            Progress(body', repairs.View(), repaired) == Injected(body, AfterTake(q), joined, decrypt, Taken(q))
  {
    body', repaired := body, 0;
    var ready := repairs.TakeReady();
    ghost var q := repairs.View();
    if ready == [] {
      return;
    }
    // Taken once: edits that are appended later have IDs of their own.
    var delivered := DeliveredIds(body);
    for i := 0 to |ready|
      invariant Progress(body', repairs.View(), repaired) == Injected(body, q, joined, decrypt, ready[..i])
    {
      assert ready[..i + 1][..i] == ready[..i];
      var appended;
      body', appended := InjectRepair(repairs, joined, decrypt, body, delivered, ready[i], body', repaired);
      repaired := if appended then repaired + 1 else repaired;
    }
    assert ready[..|ready|] == ready;
  }

  // ----- Conservation

  /** The edits of the repairs that end up in a room, in order. */
  ghost function EditsFor(body: Json, joined: map<string, Option<Json>>, decrypt: Decryptor,
                          repairs: seq<PendingRepair>, room: string): seq<Json>
    requires Markable(decrypt)
  {
    if repairs == [] then []
    else
      var before := EditsFor(body, joined, decrypt, repairs[..|repairs| - 1], room);
      var repair := repairs[|repairs| - 1];
      var fate := FateOf(body, joined, decrypt, repair);
      if fate.Appended? && repair.room == room then before + [fate.edit] else before
  }

  ghost function WithFate(body: Json, joined: map<string, Option<Json>>, decrypt: Decryptor,
                          repairs: seq<PendingRepair>, requeued: bool): seq<PendingRepair>
    requires Markable(decrypt)
  {
    if repairs == [] then []
    else
      var before := WithFate(body, joined, decrypt, repairs[..|repairs| - 1], requeued);
      var repair := repairs[|repairs| - 1];
      var fate := FateOf(body, joined, decrypt, repair);
      if (if requeued then fate.Requeued? else fate.Appended?) then before + [repair] else before
  }

  /** What one room's entry looks like once the given edits have gone there. */
  ghost predicate RoomDelivers(body: Json, body': Json, joined: map<string, Option<Json>>, room: string,
                               edits: seq<Json>)
  {
    if room !in JoinRooms(body') then edits == [] && room !in JoinRooms(body)
    else if room in JoinRooms(body) then
      && Events(JoinRooms(body')[room]) == Events(JoinRooms(body)[room]) + edits
      && SameButEvents(JoinRooms(body')[room], JoinRooms(body)[room])
    else
      && edits != [] && room in joined
      && Events(JoinRooms(body')[room]) == edits
      && SameButEvents(JoinRooms(body')[room], FreshEntry(joined[room]))
  }

  /** What the response looks like once the repairs have met their fates. */
  ghost predicate Delivers(body: Json, body': Json, joined: map<string, Option<Json>>, decrypt: Decryptor,
                           repairs: seq<PendingRepair>)
    requires Markable(decrypt)
  {
    && SameButRooms(body', body)
    && forall r :: RoomDelivers(body, body', joined, r, EditsFor(body, joined, decrypt, repairs, r))
  }

  lemma DeliversNone(body: Json, joined: map<string, Option<Json>>, decrypt: Decryptor)
    requires Markable(decrypt)
    ensures Delivers(body, body, joined, decrypt, [])
  {
  }

  lemma ReachableStays(body: Json, body': Json, joined: map<string, Option<Json>>, decrypt: Decryptor,
                       repairs: seq<PendingRepair>, room: string)
    requires Markable(decrypt) && Delivers(body, body', joined, decrypt, repairs)
    ensures Reachable(body', joined, room) <==> Reachable(body, joined, room)
  {
    assert RoomDelivers(body, body', joined, room, EditsFor(body, joined, decrypt, repairs, room));
  }

  lemma RoomGetsOneMore(body: Json, body1: Json, joined: map<string, Option<Json>>, room: string,
                        edits: seq<Json>, edit: Json)
    requires WellShaped(body1) && Reachable(body1, joined, room)
    requires RoomDelivers(body, body1, joined, room, edits)
    ensures var body2 := PushInto(body1, joined, room, edit);
            body2.Some? && RoomDelivers(body, body2.value, joined, room, edits + [edit])
  {
    Pushed(body1, joined, room, edit);
    if room !in JoinRooms(body1) {
      FreshIsOpen(joined[room]);
      assert edits + [edit] == [edit] && [] + [edit] == [edit];
    }
  }

  lemma DeliversOneMore(body: Json, body1: Json, joined: map<string, Option<Json>>, decrypt: Decryptor,
                        repairs: seq<PendingRepair>, repair: PendingRepair)
    requires Markable(decrypt) && WellShaped(body1) && Delivers(body, body1, joined, decrypt, repairs)
    requires FateOf(body, joined, decrypt, repair).Appended?
    ensures var pushed := PushInto(body1, joined, repair.room, FateOf(body, joined, decrypt, repair).edit);
            pushed.Some? && Delivers(body, pushed.value, joined, decrypt, repairs + [repair])
  {
    var room, edit := repair.room, FateOf(body, joined, decrypt, repair).edit;
    ReachableStays(body, body1, joined, decrypt, repairs, room);
    Pushed(body1, joined, room, edit);
    var body2 := PushInto(body1, joined, room, edit).value;
    forall r
      ensures RoomDelivers(body, body2, joined, r, EditsFor(body, joined, decrypt, repairs + [repair], r))
    {
      assert RoomDelivers(body, body1, joined, r, EditsFor(body, joined, decrypt, repairs, r));
      EditsForOneMore(body, joined, decrypt, repairs, repair, r);
      if r == room {
        RoomGetsOneMore(body, body1, joined, room, EditsFor(body, joined, decrypt, repairs, room), edit);
      }
    }
  }

  lemma EditsForOneMore(body: Json, joined: map<string, Option<Json>>, decrypt: Decryptor,
                        repairs: seq<PendingRepair>, repair: PendingRepair, room: string)
    requires Markable(decrypt)
    ensures var fate := FateOf(body, joined, decrypt, repair);
            EditsFor(body, joined, decrypt, repairs + [repair], room)
            == EditsFor(body, joined, decrypt, repairs, room)
               + if fate.Appended? && repair.room == room then [fate.edit] else []
  {
    var all := repairs + [repair];
    assert all[..|all| - 1] == repairs;
  }

  lemma DeliversSame(body: Json, body1: Json, joined: map<string, Option<Json>>, decrypt: Decryptor,
                     repairs: seq<PendingRepair>, repair: PendingRepair)
    requires Markable(decrypt) && Delivers(body, body1, joined, decrypt, repairs)
    requires !FateOf(body, joined, decrypt, repair).Appended?
    ensures Delivers(body, body1, joined, decrypt, repairs + [repair])
  {
    forall r
      ensures RoomDelivers(body, body1, joined, r, EditsFor(body, joined, decrypt, repairs + [repair], r))
    {
      assert RoomDelivers(body, body1, joined, r, EditsFor(body, joined, decrypt, repairs, r));
      EditsForOneMore(body, joined, decrypt, repairs, repair, r);
    }
  }

  /** One pass of the loop does to a repair what its fate says, no matter which repairs
      went before. */
  lemma OneByFate(body: Json, p: Progress, joined: map<string, Option<Json>>, decrypt: Decryptor,
                  repairs: seq<PendingRepair>, repair: PendingRepair)
    requires Markable(decrypt) && WellShaped(p.body) && Delivers(body, p.body, joined, decrypt, repairs)
    ensures InjectOne(body, p, joined, decrypt, repair) ==
            match FateOf(body, joined, decrypt, repair)
            case Requeued => p.(q := Requeue(p.q, repair))
            case Appended(edit) =>
              (assert Reachable(p.body, joined, repair.room) by {
                 ReachableStays(body, p.body, joined, decrypt, repairs, repair.room);
               }
               p.(body := PushInto(p.body, joined, repair.room, edit).value, count := p.count + 1))
            case _ => p
  {
    ReachableStays(body, p.body, joined, decrypt, repairs, repair.room);
  }

  /** Each taken repair meets exactly its fate: the response gains exactly the edits of
      those appended, each at the end of its own room and in order; exactly those without
      a key go back to the queue, in order; and the count is the number of edits. */
  lemma {:induction false} InjectConserves(body: Json, q: Queue, joined: map<string, Option<Json>>,
                                           decrypt: Decryptor, repairs: seq<PendingRepair>)
    requires WellShaped(body) && Markable(decrypt)
    ensures var p := Injected(body, q, joined, decrypt, repairs);
            && Delivers(body, p.body, joined, decrypt, repairs)
            && p.count == |WithFate(body, joined, decrypt, repairs, false)|
            && p.q.order == q.order + Ids(WithFate(body, joined, decrypt, repairs, true))
            && p.q == q.(pending := p.q.pending, order := p.q.order)
  {
    if repairs == [] {
      DeliversNone(body, joined, decrypt);
    } else {
      var before, repair := repairs[..|repairs| - 1], repairs[|repairs| - 1];
      InjectConserves(body, q, joined, decrypt, before);
      assert repairs == before + [repair];
      var p := Injected(body, q, joined, decrypt, before);
      OneByFate(body, p, joined, decrypt, before, repair);
      var fate := FateOf(body, joined, decrypt, repair);
      if fate.Appended? {
        DeliversOneMore(body, p.body, joined, decrypt, before, repair);
      } else {
        DeliversSame(body, p.body, joined, decrypt, before, repair);
      }
    }
  }

  lemma BackOneMore(repairs: seq<PendingRepair>, repair: PendingRepair)
    ensures Ids(repairs + [repair]) == Ids(repairs) + [repair.id]
    ensures Elems(Ids(repairs + [repair])) == Elems(Ids(repairs)) + {repair.id}
  {
    ElemsConcat(Ids(repairs), [repair.id]);
    assert Elems([repair.id]) == {repair.id};
  }

  /** The queue is in step, and beyond what it held it holds just these repairs. */
  ghost predicate HoldsAgain(q: Queue, q': Queue, back: seq<PendingRepair>) {
    && q'.Consistent()
    && q'.pending.Keys == q.pending.Keys + Elems(Ids(back))
    && (forall id :: id in q.pending ==> q'.pending[id] == q.pending[id])
    && (forall r :: r in back ==> r.id in q'.pending && q'.pending[r.id] == r)
  }

  lemma HoldsOneMore(q: Queue, q1: Queue, back: seq<PendingRepair>, repair: PendingRepair)
    requires HoldsAgain(q, q1, back) && repair.id !in q1.pending
    ensures HoldsAgain(q, Requeue(q1, repair), back + [repair])
  {
    RequeueConsistent(q1, repair);
    BackOneMore(back, repair);
  }

  lemma {:induction false} RequeuedAreTaken(body: Json, joined: map<string, Option<Json>>, decrypt: Decryptor,
                                            repairs: seq<PendingRepair>)
    requires Markable(decrypt)
    ensures Elems(Ids(WithFate(body, joined, decrypt, repairs, true))) <= Elems(Ids(repairs))
  {
    if repairs == [] {
    } else {
      var before, repair := repairs[..|repairs| - 1], repairs[|repairs| - 1];
      RequeuedAreTaken(body, joined, decrypt, before);
      assert repairs == before + [repair];
      BackOneMore(before, repair);
      BackOneMore(WithFate(body, joined, decrypt, before, true), repair);
    }
  }

  /** With the queue in step, injection keeps it in step and leaves pending exactly the
      events that were not ready and, as the very repairs taken, those that could not be
      decrypted. */
  lemma {:induction false} InjectKeepsQueue(body: Json, q: Queue, joined: map<string, Option<Json>>,
                                            decrypt: Decryptor, repairs: seq<PendingRepair>)
    requires WellShaped(body) && Markable(decrypt) && q.Consistent()
    requires NoDup(Ids(repairs)) && Elems(Ids(repairs)) !! q.pending.Keys
    ensures var back := WithFate(body, joined, decrypt, repairs, true);
            && HoldsAgain(q, Injected(body, q, joined, decrypt, repairs).q, back)
            && Elems(Ids(back)) <= Elems(Ids(repairs))
  {
    RequeuedAreTaken(body, joined, decrypt, repairs);
    if repairs == [] {
    } else {
      var before, repair := repairs[..|repairs| - 1], repairs[|repairs| - 1];
      assert repairs == before + [repair];
      BackOneMore(before, repair);
      NoDupAppend(Ids(before), repair.id);
      InjectKeepsQueue(body, q, joined, decrypt, before);
      var p := Injected(body, q, joined, decrypt, before);
      InjectConserves(body, q, joined, decrypt, before);
      OneByFate(body, p, joined, decrypt, before, repair);
      if FateOf(body, joined, decrypt, repair).Requeued? {
        HoldsOneMore(q, p.q, WithFate(body, joined, decrypt, before, true), repair);
      }
    }
  }

  // ----- In terms of the response's keys

  /** A room's own entry of a list of rooms, and the events of its timeline. */
  predicate HasEntry(body: Json, room: string) {
    match Get2(body, "rooms", "join")
    case Some(Obj(rooms)) => room in rooms
    case _ => false
  }

  predicate HasEvent(body: Json, room: string, event: Json) {
    match Get2(body, "rooms", "join")
    case Some(Obj(rooms)) =>
      room in rooms
      && (match Get2(rooms[room], "timeline", "events")
          case Some(Arr(events)) => event in events
          case _ => false)
    case _ => false
  }

  /** The IDs taken for delivered are those in the timelines of joined rooms. */
  lemma DeliveredAre(body: Json, id: string)
    ensures id in DeliveredIds(body)
            <==> exists room, event :: HasEvent(body, room, event) && GetStr(event, "event_id") == Some(id)
  {
    if id in DeliveredIds(body) {
      var room, event :| room in JoinRooms(body) && event in Events(JoinRooms(body)[room])
                         && GetStr(event, "event_id").Some? && GetStr(event, "event_id").value == id;
      assert HasEvent(body, room, event);
    }
    if exists room, event :: HasEvent(body, room, event) && GetStr(event, "event_id") == Some(id) {
      var room, event :| HasEvent(body, room, event) && GetStr(event, "event_id") == Some(id);
      assert room in JoinRooms(body) && event in Events(JoinRooms(body)[room]);
    }
  }

  /** A repair that the response does not hold is put back exactly if it cannot be decrypted,
      and has its edit appended exactly if it has one and the response has the room or the
      client is in it. */
  lemma FateIs(body: Json, joined: map<string, Option<Json>>, decrypt: Decryptor, repair: PendingRepair)
    requires Markable(decrypt)
    ensures var fate, plain := FateOf(body, joined, decrypt, repair), decrypt(repair);
            && (fate.InResponse? <==> repair.id in DeliveredIds(body))
            && (fate.Requeued? <==> repair.id !in DeliveredIds(body) && plain.None?)
            && (fate.Appended?
                <==> && repair.id !in DeliveredIds(body) && plain.Some? && SyntheticEdit(plain.value).Some?
                     && body.Obj? && (HasEntry(body, repair.room) || repair.room in joined))
            && (fate.Appended? ==> Some(fate.edit) == SyntheticEdit(plain.value))
  {
  }

  lemma {:induction false} EditIsDue(body: Json, joined: map<string, Option<Json>>, decrypt: Decryptor,
                                     repairs: seq<PendingRepair>, repair: PendingRepair)
    requires Markable(decrypt) && repair in repairs && FateOf(body, joined, decrypt, repair).Appended?
    ensures FateOf(body, joined, decrypt, repair).edit in EditsFor(body, joined, decrypt, repairs, repair.room)
  {
    var before, last := repairs[..|repairs| - 1], repairs[|repairs| - 1];
    assert repairs == before + [last];
    if last == repair {
      EditsForOneMore(body, joined, decrypt, before, repair, repair.room);
    } else {
      EditIsDue(body, joined, decrypt, before, repair);
      EditsForOneMore(body, joined, decrypt, before, last, repair.room);
    }
  }

  /** The edit of every taken repair that can be decrypted, and that the response does not
      hold, is in the response in the end, in its room's timeline. */
  lemma TakenRepairArrives(body: Json, q: Queue, joined: map<string, Option<Json>>, decrypt: Decryptor,
                           repairs: seq<PendingRepair>, repair: PendingRepair)
    requires WellShaped(body) && Markable(decrypt) && repair in repairs && repair.id !in DeliveredIds(body)
    requires decrypt(repair).Some? && SyntheticEdit(decrypt(repair).value).Some?
    requires body.Obj? && (HasEntry(body, repair.room) || repair.room in joined)
    ensures HasEvent(Injected(body, q, joined, decrypt, repairs).body, repair.room,
                     SyntheticEdit(decrypt(repair).value).value)
  {
    FateIs(body, joined, decrypt, repair);
    EditIsDue(body, joined, decrypt, repairs, repair);
    InjectConserves(body, q, joined, decrypt, repairs);
    var p, room := Injected(body, q, joined, decrypt, repairs), repair.room;
    assert RoomDelivers(body, p.body, joined, room, EditsFor(body, joined, decrypt, repairs, room));
  }

  /** An entry that is made for a room repeats the unread counts the client was given last,
      if any, and is not cut short. */
  lemma NewEntryIs(body: Json, q: Queue, joined: map<string, Option<Json>>, decrypt: Decryptor,
                   repairs: seq<PendingRepair>, room: string)
    requires WellShaped(body) && Markable(decrypt)
    requires !HasEntry(body, room) && HasEntry(Injected(body, q, joined, decrypt, repairs).body, room)
    ensures var entry := JoinRooms(Injected(body, q, joined, decrypt, repairs).body)[room];
            && room in joined
            && Get(entry, "unread_notifications") == joined[room]
            && Get2(entry, "timeline", "limited") == Some(Bool(false))
            && (forall key :: key != "timeline" && key != "unread_notifications" ==> Get(entry, key).None?)
            && Events(entry) == EditsFor(body, joined, decrypt, repairs, room)
  {
    InjectConserves(body, q, joined, decrypt, repairs);
    var p := Injected(body, q, joined, decrypt, repairs);
    assert RoomDelivers(body, p.body, joined, room, EditsFor(body, joined, decrypt, repairs, room));
    FreshEntryIs(joined[room]);
  }

  lemma FreshEntryIs(unread: Option<Json>)
    ensures var entry := FreshEntry(unread);
            && Get(entry, "unread_notifications") == unread
            && Get2(entry, "timeline", "limited") == Some(Bool(false))
            && (forall key :: key != "timeline" && key != "unread_notifications" ==> Get(entry, key).None?)
  {
  }
}
