/** The queue of placeholders that wait for their room keys. */
module RepairQueue {
  import opened Seqs
  import opened Json

  const MAX_PENDING: nat := 2000

  /** What is kept of an event until its key comes: enough to decrypt it and to place its edit. */
  datatype PendingRepair = PendingRepair(room: string, id: string, session: Option<string>, event: Json)

  /** What the queue's mutex guards, and how often its waiters were notified. */
  datatype Queue = Queue(
    pending: map<string, PendingRepair>,
    order: seq<string>,
    readySessions: set<string>,
    retryAll: bool,
    wakes: nat)
  {
    predicate IsReady(repair: PendingRepair) {
      retryAll || (repair.session.Some? && repair.session.value in readySessions)
    }

    function ReadyIds(): set<string> {
      set id | id in pending && IsReady(pending[id])
    }

    predicate AnyReady() {
      exists id :: id in pending && IsReady(pending[id])
    }

    /** What holds under every interleaving: each entry is stored under its own
        event ID, and that ID has a place in the arrival order. */
    ghost predicate Covered() {
      && pending.Keys <= Elems(order)
      && forall id :: id in pending ==> pending[id].id == id
    }

    /** The order lists exactly the entries, each once. */
    ghost predicate Consistent() {
      Covered() && Elems(order) == pending.Keys && NoDup(order)
    }
  }

  // ----- What each operation makes of the queue

  /** Forget the oldest until the order fits. */
  function Trim(q: Queue): Queue
    decreases |q.order|
  {
    if |q.order| <= MAX_PENDING then q
    else Trim(q.(pending := q.pending - {q.order[0]}, order := q.order[1..]))
  }

  function Track(q: Queue, room: string, event: Json, session: Option<string>): Queue {
    match GetStr(event, "event_id")
    case None => q
    case Some(id) =>
      if id in q.pending then q
      else Trim(q.(pending := q.pending[id := PendingRepair(room, id, session, event)],
                   order := q.order + [id]))
  }

  function NoteKeys(q: Queue, sessions: set<string>): Queue {
    if q.pending == map[] then q
    else
      var noted := q.(readySessions := q.readySessions + sessions);
      if noted.AnyReady() then noted.(wakes := q.wakes + 1) else q.(readySessions := {})
  }

  function NoteBulk(q: Queue): Queue {
    if q.pending == map[] then q else q.(retryAll := true, wakes := q.wakes + 1)
  }

  function Ids(repairs: seq<PendingRepair>): seq<string> {
    seq(|repairs|, i requires 0 <= i < |repairs| => repairs[i].id)
  }

  /** A pass over the arrival order that removes the ready entries. */
  datatype Sweep = Sweep(kept: seq<string>, taken: seq<PendingRepair>, pending: map<string, PendingRepair>)

  function SweepOrder(order: seq<string>, ready: set<string>, pending: map<string, PendingRepair>): Sweep {
    if order == [] then Sweep([], [], pending)
    else
      var before := SweepOrder(order[..|order| - 1], ready, pending);
      var id := order[|order| - 1];
      if id !in ready then before.(kept := before.kept + [id])
      else if id !in before.pending then before
      else before.(taken := before.taken + [before.pending[id]], pending := before.pending - {id})
  }

  function TakeSweep(q: Queue): Sweep {
    SweepOrder(q.order, set id | id in q.pending && q.IsReady(q.pending[id]) :: q.pending[id].id, q.pending)
  }

  /** The repairs a take hands out, oldest first. */
  function Taken(q: Queue): seq<PendingRepair> {
    TakeSweep(q).taken
  }

  function AfterTake(q: Queue): Queue {
    q.(pending := TakeSweep(q).pending, order := TakeSweep(q).kept, readySessions := {}, retryAll := false)
  }

  function Requeue(q: Queue, repair: PendingRepair): Queue {
    q.(pending := q.pending[repair.id := repair], order := q.order + [repair.id])
  }

  // ----- The queue itself

  class RepairQueue {
    var pending: map<string, PendingRepair>
    var order: seq<string>
    var readySessions: set<string>
    var retryAll: bool
    /** Calls of Notify::notify_waiters: a waiter fires once this has grown. */
    var wakes: nat

    function View(): Queue
      reads this
    {
      Queue(pending, order, readySessions, retryAll, wakes)
    }

    constructor ()
      ensures View() == Queue(map[], [], {}, false, 0) && View().Consistent()
    {
      pending, order, readySessions, retryAll, wakes := map[], [], {}, false, 0;
    }

    method AddPlaceholder(room: string, event: Json, session: Option<string>)
      modifies this
      ensures View() == Track(old(View()), room, event, session)
    {
      var eventId := GetStr(event, "event_id");
      if eventId.None? || eventId.value in pending {
        return;
      }
      var id := eventId.value;
      pending := pending[id := PendingRepair(room, id, session, event)];
      order := order + [id];
      ghost var full := View();
      while |order| > MAX_PENDING
        invariant Trim(View()) == Trim(full)
        decreases |order|
      {
        var oldest := order[0];
        order := order[1..];
        pending := pending - {oldest};
      }
    }

    method NoteRoomKeys(sessions: set<string>)
      modifies this
      ensures View() == NoteKeys(old(View()), sessions)
    {
      if pending == map[] {
        return;
      }
      readySessions := readySessions + sessions;
      if View().AnyReady() {
        wakes := wakes + 1;
      } else {
        readySessions := {};
      }
    }

    method NoteBulkImport()
      modifies this
      ensures View() == NoteBulk(old(View()))
    {
      if pending == map[] {
        return;
      }
      retryAll := true;
      wakes := wakes + 1;
    }

    method HasReady() returns (ready: bool)
      ensures ready <==> View().ReadyIds() != {}
      // Ready is what waits for a session whose key came, and after a bulk import all.
      ensures ready <==> exists id :: id in pending && (retryAll || (pending[id].session.Some?
                                                                    && pending[id].session.value in readySessions))
    {
      ready := View().AnyReady();
      AnyReadyIds(View());
    }

    /** A pass over the order that hands out the ready entries and clears both marks; see
        TakePartition. */
    method TakeReady() returns (taken: seq<PendingRepair>)
      modifies this
      ensures View() == AfterTake(old(View()))
      ensures taken == Taken(old(View()))
      ensures old(View()).Covered() ==>
                forall id :: id in old(pending) ==>
                  (id in Ids(taken)
                   <==> old(retryAll) || (old(pending)[id].session.Some?
                                          && old(pending)[id].session.value in old(readySessions)))
    {
      var ready := set id | id in pending && View().IsReady(pending[id]) :: pending[id].id;
      readySessions := {};
      retryAll := false;
      taken := [];
      var was := order;
      order := [];
      for i := 0 to |was|
        invariant readySessions == {} && !retryAll && wakes == old(wakes)
        invariant Sweep(order, taken, pending) == SweepOrder(was[..i], ready, old(pending))
      {
        assert was[..i + 1][..i] == was[..i];
        if was[i] !in ready {
          order := order + [was[i]];
        } else if was[i] in pending {
          taken := taken + [pending[was[i]]];
          pending := pending - {was[i]};
        }
      }
      assert was[..|was|] == was;
      TakenAreReady(old(View()));
    }

    /** Last in the order again, without a look at whether it is pending; see
        RequeueConsistent. */
    method PutBack(repair: PendingRepair)
      modifies this
      ensures View() == Requeue(old(View()), repair)
    {
      order := order + [repair.id];
      pending := pending[repair.id := repair];
    }
  }

  // ----- Laws

  lemma AnyReadyIds(q: Queue)
    ensures q.AnyReady() <==> q.ReadyIds() != {}
  {
    if q.AnyReady() {
      var id :| id in q.pending && q.IsReady(q.pending[id]);
      assert id in q.ReadyIds();
    }
  }

  /** Trimming keeps the newest MAX_PENDING places and forgets the entries of the others. */
  lemma {:induction false} TrimIsLast(q: Queue)
    ensures Trim(q).order == Last(MAX_PENDING, q.order)
    ensures Trim(q).pending == q.pending - Elems(q.order[..|q.order| - |Trim(q).order|])
    ensures Trim(q) == q.(pending := Trim(q).pending, order := Trim(q).order)
    decreases |q.order|
  {
    if |q.order| <= MAX_PENDING {
      assert q.pending - Elems(q.order[..0]) == q.pending;
    } else {
      var q1 := q.(pending := q.pending - {q.order[0]}, order := q.order[1..]);
      TrimIsLast(q1);
      var n := |q.order| - MAX_PENDING;
      assert q.order[..n] == [q.order[0]] + q1.order[..n - 1];
      ElemsConcat([q.order[0]], q1.order[..n - 1]);
      assert q.pending - Elems(q.order[..n]) == q1.pending - Elems(q1.order[..n - 1]);
    }
  }

  /** A requeue keeps the order and the entries in step exactly when the event
      has not been tracked again since it was taken. */
  lemma RequeueConsistent(q: Queue, repair: PendingRepair)
    requires q.Covered()
    ensures Requeue(q, repair).Covered()
    ensures q.Consistent() ==> (Requeue(q, repair).Consistent() <==> repair.id !in q.pending)
  {
    ElemsConcat(q.order, [repair.id]);
    NoDupAppend(q.order, repair.id);
  }

  /** Forgetting a front part of the order keeps both invariants. */
  lemma ForgetKeeps(q: Queue, front: seq<string>, rest: seq<string>)
    requires q.Covered() && q.order == front + rest
    ensures q.(pending := q.pending - Elems(front), order := rest).Covered()
    ensures q.Consistent() ==> q.(pending := q.pending - Elems(front), order := rest).Consistent()
  {
    ElemsConcat(front, rest);
    if q.Consistent() {
      NoDupParts(front, rest);
    }
  }

  lemma TrimKeeps(q: Queue)
    requires q.Covered()
    ensures Trim(q).Covered()
    ensures q.Consistent() ==> Trim(q).Consistent()
  {
    TrimIsLast(q);
    var t := Trim(q);
    var n := |q.order| - |t.order|;
    assert q.order == q.order[..n] + q.order[n..];
    ForgetKeeps(q, q.order[..n], q.order[n..]);
    assert t == q.(pending := q.pending - Elems(q.order[..n]), order := q.order[n..]);
  }

  /** A track keeps both invariants. */
  lemma TrackKeeps(q: Queue, room: string, event: Json, session: Option<string>)
    requires q.Covered()
    ensures Track(q, room, event, session).Covered()
    ensures q.Consistent() ==> Track(q, room, event, session).Consistent()
  {
    var id := GetStr(event, "event_id");
    if id.Some? && id.value !in q.pending {
      var repair := PendingRepair(room, id.value, session, event);
      RequeueConsistent(q, repair);
      TrimKeeps(Requeue(q, repair));
    }
  }

  /** An inserting track leaves a bounded order with the new event at its end; the event
      is pending then if and only if none of the places forgotten was an older one of its
      own, as in an order that is in step. Any other track changes nothing. */
  lemma TrackBounds(q: Queue, room: string, event: Json, session: Option<string>)
    ensures var id := GetStr(event, "event_id");
            var q' := Track(q, room, event, session);
            if id.Some? && id.value !in q.pending then
              && q'.order == Last(MAX_PENDING, q.order + [id.value])
              && 1 <= |q'.order| <= MAX_PENDING
              && (id.value in q'.pending <==> id.value !in q.order[..|q.order| + 1 - |q'.order|])
              && (id.value in q'.pending ==>
                    q'.pending[id.value] == PendingRepair(room, id.value, session, event))
              && (q.Consistent() ==> id.value in q'.pending)
              && (forall other :: other in q'.pending && other != id.value ==>
                    other in q.pending && q'.pending[other] == q.pending[other])
              && q' == q.(pending := q'.pending, order := q'.order)
            else q' == q
  {
    var id := GetStr(event, "event_id");
    if id.Some? && id.value !in q.pending {
      var repair := PendingRepair(room, id.value, session, event);
      InsertedStays(q, repair);
      if q.Consistent() {
        TrackKeeps(q, room, event, session);
        var order := Track(q, room, event, session).order;
        assert order[|order| - 1] == id.value;
        assert id.value in Elems(order);
      }
    }
  }

  lemma InsertedStays(q: Queue, repair: PendingRepair)
    requires repair.id !in q.pending
    ensures var q' := Trim(Requeue(q, repair));
            && q'.order == Last(MAX_PENDING, q.order + [repair.id])
            && 1 <= |q'.order| <= MAX_PENDING
            && (repair.id in q'.pending <==> repair.id !in q.order[..|q.order| + 1 - |q'.order|])
            && (repair.id in q'.pending ==> q'.pending[repair.id] == repair)
            && (forall other :: other in q'.pending && other != repair.id ==>
                  other in q.pending && q'.pending[other] == q.pending[other])
            && q' == q.(pending := q'.pending, order := q'.order)
  {
    var full := Requeue(q, repair);
    TrimIsLast(full);
    var n := |full.order| - |Trim(full).order|;
    assert full.order[..n] == q.order[..n];
    assert repair.id in Elems(q.order[..n]) <==> repair.id in q.order[..n];
  }

  /** The event has one place in the order if it is pending, and else none. */
  predicate OnePlace(q: Queue, id: string) {
    multiset(q.order)[id] == if id in q.pending then 1 else 0
  }

  /** So it is for every event while order and entries are in step. */
  lemma ConsistentOnePlace(q: Queue, id: string)
    requires q.Consistent()
    ensures OnePlace(q, id)
  {
    NoDupCount(q.order, id);
    assert id in q.order <==> id in Elems(q.order);
  }

  lemma RequeueOnePlace(q: Queue, repair: PendingRepair, id: string)
    requires OnePlace(q, id) && repair.id !in q.pending
    ensures OnePlace(Requeue(q, repair), id)
  {
  }

  lemma TrimOnePlace(q: Queue, id: string)
    requires OnePlace(q, id)
    ensures OnePlace(Trim(q), id)
  {
    TrimIsLast(q);
    var n := |q.order| - |Trim(q).order|;
    assert q.order == q.order[..n] + q.order[n..];
    assert id in Elems(q.order[..n]) <==> multiset(q.order[..n])[id] > 0;
  }

  /** And so it stays when events are tracked, whatever the rest of the queue. */
  lemma TrackOnePlace(q: Queue, room: string, event: Json, session: Option<string>, id: string)
    requires OnePlace(q, id)
    ensures OnePlace(Track(q, room, event, session), id)
  {
    var eid := GetStr(event, "event_id");
    if eid.Some? && eid.value !in q.pending {
      var repair := PendingRepair(room, eid.value, session, event);
      RequeueOnePlace(q, repair, id);
      TrimOnePlace(Requeue(q, repair), id);
    }
  }

  lemma FirstsOneMore(s: seq<string>, x: string)
    ensures Firsts(s + [x]) == if x in Elems(s) then Firsts(s) else Firsts(s) + [x]
  {
    assert (s + [x])[..|s|] == s;
    assert x in s <==> x in Elems(s);
  }

  lemma {:induction false} SweepKeeps(order: seq<string>, ready: set<string>, pending: map<string, PendingRepair>)
    ensures SweepOrder(order, ready, pending).kept == Without(order, ready)
    ensures SweepOrder(order, ready, pending).pending == pending - (Elems(order) * ready)
  {
    if order == [] {
      assert pending - (Elems(order) * ready) == pending;
    } else {
      var a, id := order[..|order| - 1], order[|order| - 1];
      SweepKeeps(a, ready, pending);
      assert order == a + [id];
      ElemsConcat(a, [id]);
    }
  }

  lemma {:induction false} SweepTakes(order: seq<string>, ready: set<string>, pending: map<string, PendingRepair>)
    requires ready <= pending.Keys
    requires forall id :: id in pending ==> pending[id].id == id
    ensures var s := SweepOrder(order, ready, pending);
            && Ids(s.taken) == Firsts(Within(order, ready))
            && (forall r :: r in s.taken ==> r.id in ready && pending[r.id] == r)
  {
    if order == [] {
    } else {
      var a, id := order[..|order| - 1], order[|order| - 1];
      SweepTakes(a, ready, pending);
      SweepKeeps(a, ready, pending);
      WithinElems(a, ready);
      FirstsOneMore(Within(a, ready), id);
      var before := SweepOrder(a, ready, pending);
      assert id in a <==> id in Elems(a);
      if id in ready && id in before.pending {
        assert before.pending[id] == pending[id];
        IdsOneMore(before.taken, before.pending[id]);
      }
    }
  }

  lemma IdsOneMore(repairs: seq<PendingRepair>, repair: PendingRepair)
    ensures Ids(repairs + [repair]) == Ids(repairs) + [repair.id]
  {
  }

  /** A take is a stable partition of the order, whatever the interleaving. */
  lemma TakePartition(q: Queue)
    requires q.Covered()
    ensures Ids(Taken(q)) == Firsts(Within(q.order, q.ReadyIds()))
    ensures forall r :: r in Taken(q) ==> r.id in q.ReadyIds() && q.pending[r.id] == r
    ensures AfterTake(q).order == Without(q.order, q.ReadyIds())
    ensures AfterTake(q).pending == q.pending - q.ReadyIds()
    ensures NoDup(Ids(Taken(q))) && Elems(Ids(Taken(q))) == q.ReadyIds()
    ensures AfterTake(q).ReadyIds() == {} && AfterTake(q).Covered()
    ensures AfterTake(q).readySessions == {} && !AfterTake(q).retryAll && AfterTake(q).wakes == q.wakes
  {
    var ready := q.ReadyIds();
    assert ready == set id | id in q.pending && q.IsReady(q.pending[id]) :: q.pending[id].id;
    SweepKeeps(q.order, ready, q.pending);
    SweepTakes(q.order, ready, q.pending);
    FirstsProperties(Within(q.order, ready));
    WithinElems(q.order, ready);
    WithoutElems(q.order, ready);
    assert Elems(q.order) * ready == ready;
  }

  lemma TakenAreReady(q: Queue)
    ensures q.Covered() ==>
              forall id :: id in q.pending ==>
                (id in Ids(Taken(q))
                 <==> q.retryAll || (q.pending[id].session.Some? && q.pending[id].session.value in q.readySessions))
  {
    if q.Covered() {
      TakePartition(q);
      forall id | id in q.pending
        ensures id in Ids(Taken(q))
                <==> q.retryAll || (q.pending[id].session.Some? && q.pending[id].session.value in q.readySessions)
      {
        assert id in Ids(Taken(q)) <==> id in Elems(Ids(Taken(q)));
      }
    }
  }

  /** With the order in step, the repairs come out in arrival order and the rest
      stays in step. */
  lemma TakeConsistent(q: Queue)
    requires q.Consistent()
    ensures Ids(Taken(q)) == Within(q.order, q.ReadyIds())
    ensures AfterTake(q).Consistent()
  {
    TakePartition(q);
    WithinNoDup(q.order, q.ReadyIds());
    FirstsProperties(Within(q.order, q.ReadyIds()));
    WithoutElems(q.order, q.ReadyIds());
    WithoutNoDup(q.order, q.ReadyIds());
  }

  /** A note makes ready just the pending events of the sessions it names, beside those that
      were; it wakes the waiters once or not at all, and leaves entries and order alone. */
  lemma NotesAreExact(q: Queue, sessions: set<string>)
    ensures var q' := NoteKeys(q, sessions);
            && q'.ReadyIds()
               == q.ReadyIds() + set id | id in q.pending && q.pending[id].session.Some?
                                          && q.pending[id].session.value in sessions
            && q'.pending == q.pending && q'.order == q.order && q'.retryAll == q.retryAll
            && q'.wakes == (if q'.ReadyIds() != {} then q.wakes + 1 else q.wakes)
            && q'.readySessions
               == (if q.pending == map[] then q.readySessions
                   else if q'.ReadyIds() != {} then q.readySessions + sessions
                   else {})
    ensures var q' := NoteBulk(q);
            && q'.ReadyIds() == q.pending.Keys && q'.pending == q.pending && q'.order == q.order
            && q'.readySessions == q.readySessions && q'.retryAll == (q.retryAll || q.pending != map[])
            && q'.wakes == (if q.pending != map[] then q.wakes + 1 else q.wakes)
  {
    NotesWake(q, sessions);
    var noted := q.(readySessions := q.readySessions + sessions);
    AnyReadyIds(noted);
    if q.pending != map[] {
      var id :| id in q.pending;
      assert q.retryAll ==> noted.IsReady(q.pending[id]);
    }
  }

  /** A note wakes the waiters exactly when it leaves something ready, and a note
      that wakes nobody leaves no key behind. */
  lemma NotesWake(q: Queue, sessions: set<string>)
    ensures NoteKeys(q, sessions).wakes > q.wakes <==> NoteKeys(q, sessions).ReadyIds() != {}
    ensures NoteBulk(q).wakes > q.wakes <==> NoteBulk(q).ReadyIds() != {}
    ensures q.pending != map[] && NoteKeys(q, sessions).ReadyIds() == {} ==>
              NoteKeys(q, sessions).readySessions == {} && !q.retryAll
    ensures forall id :: id in q.pending && q.pending[id].session.Some?
                         && q.pending[id].session.value in sessions ==>
              id in NoteKeys(q, sessions).ReadyIds()
    ensures NoteBulk(q).ReadyIds() == q.pending.Keys
  {
    var noted := q.(readySessions := q.readySessions + sessions);
    if q.pending != map[] {
      var id :| id in q.pending;
      assert id in NoteBulk(q).ReadyIds();
      AnyReadyIds(noted);
      if !noted.AnyReady() {
        assert !noted.IsReady(q.pending[id]);
        assert forall i :: i in q.pending ==> !noted.IsReady(q.pending[i]);
      }
    }
  }
}
