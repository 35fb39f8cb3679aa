/** Runs of the repair queue: any number of requests take repairs, decrypt them
    while others use the queue, and put back what they could not decrypt. */
module RepairRuns {
  import opened Seqs
  import opened Json
  import opened RepairQueue

  /** The queue, and the repairs that requests have taken and not yet settled. */
  datatype State = State(q: Queue, flying: seq<PendingRepair>)

  datatype Step =
    | Tracks(room: string, event: Json, session: Option<string>)
    | Keys(sessions: set<string>)
    | Bulk
    | Takes
    | PutsBack(i: nat)
    | Settles(i: nat)

  predicate Enabled(s: State, step: Step) {
    (step.PutsBack? || step.Settles?) ==> step.i < |s.flying|
  }

  function Land(flying: seq<PendingRepair>, i: nat): seq<PendingRepair>
    requires i < |flying|
  {
    flying[..i] + flying[i + 1..]
  }

  function Next(s: State, step: Step): State
    requires Enabled(s, step)
  {
    match step
    case Tracks(room, event, session) => s.(q := Track(s.q, room, event, session))
    case Keys(sessions) => s.(q := NoteKeys(s.q, sessions))
    case Bulk => s.(q := NoteBulk(s.q))
    case Takes => State(AfterTake(s.q), s.flying + Taken(s.q))
    case PutsBack(i) => State(Requeue(s.q, s.flying[i]), Land(s.flying, i))
    case Settles(i) => s.(flying := Land(s.flying, i))
  }

  predicate Possible(s: State, steps: seq<Step>)
    decreases |steps|
  {
    steps == [] || (Enabled(s, steps[0]) && Possible(Next(s, steps[0]), steps[1..]))
  }

  function Run(s: State, steps: seq<Step>): State
    requires Possible(s, steps)
    decreases |steps|
  {
    if steps == [] then s else Run(Next(s, steps[0]), steps[1..])
  }

  // ----- The two invariants

  lemma StepKeepsCovered(s: State, step: Step)
    requires s.q.Covered() && Enabled(s, step)
    ensures Next(s, step).q.Covered()
  {
    match step
    case Tracks(room, event, session) => TrackKeeps(s.q, room, event, session);
    case Keys(sessions) =>
    case Bulk =>
    case Takes => TakePartition(s.q);
    case PutsBack(i) => RequeueConsistent(s.q, s.flying[i]);
    case Settles(i) =>
  }

  /** Under every interleaving, every pending event has its place in the order. */
  lemma {:induction false} AlwaysCovered(s: State, steps: seq<Step>)
    requires s.q.Covered() && Possible(s, steps)
    ensures Run(s, steps).q.Covered()
    decreases |steps|
  {
    if steps == [] {
    } else {
      StepKeepsCovered(s, steps[0]);
      AlwaysCovered(Next(s, steps[0]), steps[1..]);
    }
  }

  /** No repair is put back while its event is pending again. */
  predicate PutsBackOnlyAbsent(s: State, steps: seq<Step>)
    requires Possible(s, steps)
    decreases |steps|
  {
    steps == []
    || (&& (steps[0].PutsBack? ==> s.flying[steps[0].i].id !in s.q.pending)
        && PutsBackOnlyAbsent(Next(s, steps[0]), steps[1..]))
  }

  ghost predicate ConsistentThroughout(s: State, steps: seq<Step>)
    requires Possible(s, steps)
    decreases |steps|
  {
    s.q.Consistent() && (steps == [] || ConsistentThroughout(Next(s, steps[0]), steps[1..]))
  }

  lemma StepConsistent(s: State, step: Step)
    requires s.q.Consistent() && Enabled(s, step)
    ensures Next(s, step).q.Consistent()
            <==> (step.PutsBack? ==> s.flying[step.i].id !in s.q.pending)
  {
    match step
    case Tracks(room, event, session) => TrackKeeps(s.q, room, event, session);
    case Keys(sessions) =>
    case Bulk =>
    case Takes => TakeConsistent(s.q);
    case PutsBack(i) => RequeueConsistent(s.q, s.flying[i]);
    case Settles(i) =>
  }

  /** The order lists exactly the pending events, each once, in every state of a run
      if and only if the run puts no repair back while its event is pending. */
  lemma {:induction false} ConsistentExactlyWhen(s: State, steps: seq<Step>)
    requires s.q.Consistent() && Possible(s, steps)
    ensures ConsistentThroughout(s, steps) <==> PutsBackOnlyAbsent(s, steps)
    decreases |steps|
  {
    if steps == [] {
    } else {
      StepConsistent(s, steps[0]);
      if Next(s, steps[0]).q.Consistent() {
        ConsistentExactlyWhen(Next(s, steps[0]), steps[1..]);
      }
    }
  }

  // ----- No second track of an event in flight

  predicate NoRetrack(s: State, steps: seq<Step>)
    requires Possible(s, steps)
    decreases |steps|
  {
    steps == []
    || (&& (steps[0].Tracks? && GetStr(steps[0].event, "event_id").Some? ==>
              GetStr(steps[0].event, "event_id").value !in Ids(s.flying))
        && NoRetrack(Next(s, steps[0]), steps[1..]))
  }

  /** No event is in flight twice, or in flight and pending. */
  ghost predicate Apart(s: State) {
    NoDup(Ids(s.flying)) && Elems(Ids(s.flying)) !! s.q.pending.Keys
  }

  lemma LandIds(flying: seq<PendingRepair>, i: nat)
    requires i < |flying| && NoDup(Ids(flying))
    ensures NoDup(Ids(Land(flying, i)))
    ensures Elems(Ids(Land(flying, i))) == Elems(Ids(flying)) - {flying[i].id}
  {
    var ids := Ids(flying);
    var rest := ids[..i] + ids[i + 1..];
    assert Ids(Land(flying, i)) == rest;
    assert ids == ids[..i] + ([ids[i]] + ids[i + 1..]);
    ElemsConcat(ids[..i], [ids[i]] + ids[i + 1..]);
    ElemsConcat([ids[i]], ids[i + 1..]);
    ElemsConcat(ids[..i], ids[i + 1..]);
    NoDupParts(ids[..i], [ids[i]] + ids[i + 1..]);
    NoDupParts([ids[i]], ids[i + 1..]);
    NoDupJoin(ids[..i], ids[i + 1..]);
  }

  lemma TakeApart(s: State)
    requires s.q.Consistent() && Apart(s)
    ensures Apart(Next(s, Takes))
  {
    TakePartition(s.q);
    assert Ids(s.flying + Taken(s.q)) == Ids(s.flying) + Ids(Taken(s.q));
    NoDupJoin(Ids(s.flying), Ids(Taken(s.q)));
    ElemsConcat(Ids(s.flying), Ids(Taken(s.q)));
  }

  lemma StepApart(s: State, step: Step)
    requires s.q.Consistent() && Apart(s) && Enabled(s, step)
    requires step.Tracks? && GetStr(step.event, "event_id").Some? ==>
               GetStr(step.event, "event_id").value !in Ids(s.flying)
    ensures Apart(Next(s, step))
    ensures step.PutsBack? ==> s.flying[step.i].id !in s.q.pending
  {
    match step
    case Tracks(room, event, session) =>
      TrackBounds(s.q, room, event, session);
    case Keys(sessions) =>
    case Bulk =>
    case Takes => TakeApart(s);
    case PutsBack(i) =>
      LandIds(s.flying, i);
      assert Ids(s.flying)[i] == s.flying[i].id;
    case Settles(i) => LandIds(s.flying, i);
  }

  /** Where no event in flight is tracked again, the order and the entries stay in step. */
  lemma {:induction false} NoRetrackKeepsConsistent(s: State, steps: seq<Step>)
    requires s.q.Consistent() && Apart(s) && Possible(s, steps) && NoRetrack(s, steps)
    ensures ConsistentThroughout(s, steps) && Apart(Run(s, steps))
    decreases |steps|
  {
    if steps == [] {
    } else {
      StepApart(s, steps[0]);
      StepConsistent(s, steps[0]);
      NoRetrackKeepsConsistent(Next(s, steps[0]), steps[1..]);
    }
  }

  lemma TakeOne(s: State, id: string)
    requires s.q.Consistent() && s.flying == [] && s.q.ReadyIds() == {id}
    ensures |Next(s, Takes).flying| == 1 && Next(s, Takes).flying[0].id == id
    ensures id !in Next(s, Takes).q.pending && Next(s, Takes).q.Consistent()
  {
    TakeConsistent(s.q);
    TakePartition(s.q);
    OnlyOne(Ids(Taken(s.q)), id);
    assert Ids(Taken(s.q))[0] == Taken(s.q)[0].id;
    assert [] + Taken(s.q) == Taken(s.q);
  }

  lemma ThreeSteps(s: State, a: Step, b: Step, c: Step)
    requires Enabled(s, a) && Enabled(Next(s, a), b) && Enabled(Next(Next(s, a), b), c)
    ensures Possible(s, [a, b, c]) && Run(s, [a, b, c]) == Next(Next(Next(s, a), b), c)
  {
    assert [a, b, c][1..] == [b, c] && [b, c][1..] == [c] && [c][1..] == [];
    var s3 := Next(Next(Next(s, a), b), c);
    assert Possible(s3, []) && Run(s3, []) == s3;
    assert Possible(Next(Next(s, a), b), [c]) && Run(Next(Next(s, a), b), [c]) == s3;
    assert Possible(Next(s, a), [b, c]) && Run(Next(s, a), [b, c]) == s3;
  }

  lemma TrackedIsLast(q: Queue, room: string, event: Json, session: Option<string>, id: string)
    requires q.Consistent() && GetStr(event, "event_id") == Some(id) && id !in q.pending
    ensures var q' := Track(q, room, event, session);
            q'.Consistent() && id in q'.pending && q'.order != [] && q'.order[|q'.order| - 1] == id
  {
    TrackKeeps(q, room, event, session);
    TrackBounds(q, room, event, session);
  }

  /** Tracking an event puts it last, and putting it back then puts it there again. */
  lemma TrackThenRequeue(q: Queue, repair: PendingRepair, room: string, event: Json, session: Option<string>)
    requires q.Consistent() && GetStr(event, "event_id") == Some(repair.id) && repair.id !in q.pending
    ensures var q' := Requeue(Track(q, room, event, session), repair);
            [repair.id, repair.id] == Last(2, q'.order) && !q'.Consistent()
  {
    TrackedIsLast(q, room, event, session, repair.id);
    var q1 := Track(q, room, event, session);
    RequeueConsistent(q1, repair);
    LastTwo(q1.order, repair.id);
  }

  lemma LastTwo(order: seq<string>, id: string)
    requires order != [] && order[|order| - 1] == id
    ensures [id, id] == Last(2, order + [id])
  {
  }

  /** In any state with one ready repair, tracking its event between its take and its
      requeue leaves the event in the order twice. */
  lemma RetrackBreaksOrder(s: State, id: string, room: string, event: Json, session: Option<string>)
    requires s.q.Consistent() && s.flying == [] && s.q.ReadyIds() == {id}
    requires GetStr(event, "event_id") == Some(id)
    ensures var steps := [Takes, Tracks(room, event, session), PutsBack(0)];
            && Possible(s, steps)
            && [id, id] == Last(2, Run(s, steps).q.order)
            && !Run(s, steps).q.Consistent()
  {
    TakeOne(s, id);
    var s1 := Next(s, Takes);
    TrackThenRequeue(s1.q, s1.flying[0], room, event, session);
    ThreeSteps(s, Takes, Tracks(room, event, session), PutsBack(0));
  }

  // ----- How long a placeholder is remembered

  lemma {:induction false} BehindWithout(order: seq<string>, drop: set<string>, id: string)
    requires id !in drop
    ensures Behind(Without(order, drop), id) <= Behind(order, id)
  {
    if order != [] && order[|order| - 1] != id {
      var a := order[..|order| - 1];
      BehindWithout(a, drop, id);
      if order[|order| - 1] !in drop {
        var w := Without(a, drop);
        assert (w + [order[|order| - 1]])[..|w|] == w;
      }
    }
  }

  lemma {:induction false} BehindLast(n: nat, order: seq<string>, id: string)
    requires id in order && Behind(order, id) < n
    ensures id in Last(n, order) && Behind(Last(n, order), id) == Behind(order, id)
    decreases |order|
  {
    var a, x := order[..|order| - 1], order[|order| - 1];
    assert order == a + [x];
    LastOneMore(n, a, x);
    if x == id {
    } else {
      BehindLast(n - 1, a, id);
      var t := Last(n - 1, a);
      assert (t + [x])[..|t|] == t;
    }
  }

  /** The places a run adds to the order at most. */
  function Places(steps: seq<Step>): nat {
    if steps == [] then 0
    else (if steps[0].Tracks? || steps[0].PutsBack? then 1 else 0) + Places(steps[1..])
  }

  /** No take of the run finds the event ready. */
  predicate NeverTaken(s: State, steps: seq<Step>, id: string)
    requires Possible(s, steps)
    decreases |steps|
  {
    steps == []
    || (&& (steps[0].Takes? ==> id !in s.q.ReadyIds())
        && NeverTaken(Next(s, steps[0]), steps[1..], id))
  }

  lemma PushBehind(order: seq<string>, x: string, id: string)
    requires id in order
    ensures id in order + [x] && Behind(order + [x], id) <= Behind(order, id) + 1
  {
    assert (order + [x])[..|order|] == order;
  }

  /** The event has just one place in the order. */
  predicate Once(order: seq<string>, id: string) {
    multiset(order)[id] == 1
  }

  lemma {:induction false} WithoutKeepsOnce(order: seq<string>, drop: set<string>, id: string)
    requires id !in drop
    ensures multiset(Without(order, drop))[id] == multiset(order)[id]
  {
    if order == [] {
    } else {
      WithoutKeepsOnce(order[..|order| - 1], drop, id);
      assert order == order[..|order| - 1] + [order[|order| - 1]];
    }
  }

  /** No repair of the event is put back. */
  predicate NeverPutBack(s: State, steps: seq<Step>, id: string)
    requires Possible(s, steps)
    decreases |steps|
  {
    steps == []
    || (&& (steps[0].PutsBack? ==> s.flying[steps[0].i].id != id)
        && NeverPutBack(Next(s, steps[0]), steps[1..], id))
  }

  /** A pending event with one place, and so many at most behind it. */
  ghost predicate Held(q: Queue, id: string, repair: PendingRepair, behind: nat) {
    && q.Covered() && id in q.pending && q.pending[id] == repair
    && Once(q.order, id) && Behind(q.order, id) <= behind
  }

  lemma RequeueHolds(q: Queue, other: PendingRepair, id: string, repair: PendingRepair, behind: nat)
    requires Held(q, id, repair, behind) && other.id != id
    ensures Held(Requeue(q, other), id, repair, behind + 1)
  {
    RequeueConsistent(q, other);
    InOrder(q, id);
    PushBehind(q.order, other.id, id);
  }

  lemma InOrder(q: Queue, id: string)
    requires q.Covered() && id in q.pending
    ensures id in q.order
  {
    assert id in Elems(q.order);
  }

  lemma TrimHolds(q: Queue, id: string, repair: PendingRepair, behind: nat)
    requires Held(q, id, repair, behind) && behind < MAX_PENDING
    ensures Held(Trim(q), id, repair, behind)
  {
    TrimKeeps(q);
    TrimIsLast(q);
    InOrder(q, id);
    BehindLast(MAX_PENDING, q.order, id);
    FrontHoldsNot(q.order, |q.order| - |Trim(q).order|, id);
  }

  lemma TrackHolds(q: Queue, room: string, event: Json, session: Option<string>, id: string, repair: PendingRepair,
                   behind: nat)
    requires Held(q, id, repair, behind) && behind + 1 < MAX_PENDING
    ensures Held(Track(q, room, event, session), id, repair, behind + 1)
  {
    var eid := GetStr(event, "event_id");
    if eid.Some? && eid.value !in q.pending {
      var other := PendingRepair(room, eid.value, session, event);
      RequeueHolds(q, other, id, repair, behind);
      TrimHolds(Requeue(q, other), id, repair, behind + 1);
    }
  }

  lemma FrontHoldsNot(order: seq<string>, n: nat, id: string)
    requires n <= |order| && Once(order, id) && id in order[n..]
    ensures id !in order[..n] && Once(order[n..], id)
  {
    assert order == order[..n] + order[n..];
  }

  lemma StepHolds(s: State, step: Step, id: string, repair: PendingRepair, behind: nat)
    requires Held(s.q, id, repair, behind) && Enabled(s, step)
    requires step.PutsBack? ==> s.flying[step.i].id != id
    requires step.Takes? ==> id !in s.q.ReadyIds()
    requires behind + Places([step]) < MAX_PENDING
    ensures Held(Next(s, step).q, id, repair, behind + Places([step]))
  {
    StepKeepsCovered(s, step);
    match step
    case Tracks(room, event, session) => TrackHolds(s.q, room, event, session, id, repair, behind);
    case Takes =>
      TakePartition(s.q);
      BehindWithout(s.q.order, s.q.ReadyIds(), id);
      WithoutKeepsOnce(s.q.order, s.q.ReadyIds(), id);
    case PutsBack(i) => RequeueHolds(s.q, s.flying[i], id, repair, behind);
    case _ =>
  }

  /** In every interleaving, a pending placeholder with one place in the order, that no take
      finds ready and none puts back meanwhile, stays pending, unchanged, until MAX_PENDING
      places have been added behind it. */
  lemma {:induction false} Remembered(s: State, steps: seq<Step>, id: string, behind: nat)
    requires s.q.Covered() && Possible(s, steps) && id in s.q.pending
    requires Once(s.q.order, id) && Behind(s.q.order, id) <= behind
    requires NeverPutBack(s, steps, id) && NeverTaken(s, steps, id)
    requires behind + Places(steps) < MAX_PENDING
    ensures id in Run(s, steps).q.pending && Run(s, steps).q.pending[id] == s.q.pending[id]
    decreases |steps|
  {
    if steps == [] {
    } else {
      assert Places([steps[0]]) + Places(steps[1..]) == Places(steps);
      StepHolds(s, steps[0], id, s.q.pending[id], behind);
      Remembered(Next(s, steps[0]), steps[1..], id, behind + Places([steps[0]]));
    }
  }
}
