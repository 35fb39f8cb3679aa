/** The way of a repair to the client: out of the queue, through a handler that injects it, in
    a response that may be lost. */
module Deliveries {
  import opened Seqs
  import opened Json
  import opened RepairQueue

  /** A handler that has taken repairs: it goes through them, appending edits to its response,
      which is then on its way. Edits are named by the event they repair. */
  datatype Handler = Injecting(todo: seq<PendingRepair>, edits: seq<string>) | Sent(edits: seq<string>)

  /** What a repair's turn comes to. Settled are those that the response holds anyway, that
      have no edit, or whose room the client has left. */
  datatype Outcome = Requeued | Appended | Settled

  datatype State = State(q: Queue, handlers: map<nat, Handler>, received: multiset<string>)

  datatype Step =
    | Tracks(room: string, event: Json, session: Option<string>)
    | Keys(sessions: set<string>)
    | Bulk
    | Takes(h: nat)
    | Turn(h: nat, outcome: Outcome)
    | Responds(h: nat)
    | Delivers(h: nat)
    // The client hangs up on the handler, or its response is lost or comes too late.
    | CutsOff(h: nat)

  predicate Enabled(s: State, step: Step) {
    match step
    case Takes(h) => h !in s.handlers
    case Turn(h, _) => h in s.handlers && s.handlers[h].Injecting? && s.handlers[h].todo != []
    case Responds(h) => h in s.handlers && s.handlers[h].Injecting? && s.handlers[h].todo == []
    case Delivers(h) => h in s.handlers && s.handlers[h].Sent?
    case CutsOff(h) => h in s.handlers
    case _ => true
  }

  function Next(s: State, step: Step): State
    requires Enabled(s, step)
  {
    match step
    case Tracks(room, event, session) => s.(q := Track(s.q, room, event, session))
    case Keys(sessions) => s.(q := NoteKeys(s.q, sessions))
    case Bulk => s.(q := NoteBulk(s.q))
    case Takes(h) => s.(q := AfterTake(s.q), handlers := s.handlers[h := Injecting(Taken(s.q), [])])
    case Turn(h, outcome) =>
      var repair, rest := s.handlers[h].todo[0], s.handlers[h].todo[1..];
      var edits := if outcome.Appended? then s.handlers[h].edits + [repair.id] else s.handlers[h].edits;
      State(if outcome.Requeued? then Requeue(s.q, repair) else s.q,
            s.handlers[h := Injecting(rest, edits)], s.received)
    case Responds(h) => s.(handlers := s.handlers[h := Sent(s.handlers[h].edits)])
    case Delivers(h) =>
      s.(handlers := s.handlers - {h}, received := s.received + multiset(s.handlers[h].edits))
    case CutsOff(h) => s.(handlers := s.handlers - {h})
  }

  predicate Possible(s: State, steps: seq<Step>)
    decreases |steps|
  {
    steps == [] || (Enabled(s, steps[0]) && Possible(Next(s, steps[0]), steps[1..]))
  }

  function Run(s: State, steps: seq<Step>): State
    requires Possible(s, steps)
    decreases |steps|
  {
    if steps == [] then s else Run(Next(s, steps[0]), steps[1..])
  }

  /** The event is not delivered as a placeholder anew. */
  predicate NotTracked(steps: seq<Step>, id: string) {
    forall step :: step in steps && step.Tracks? ==> GetStr(step.event, "event_id") != Some(id)
  }

  // ----- Where a repair is

  predicate Holds(handler: Handler, id: string) {
    id in handler.edits || (handler.Injecting? && id in Ids(handler.todo))
  }

  predicate HeldBy(s: State, h: nat, id: string) {
    h in s.handlers && Holds(s.handlers[h], id)
  }

  /** The event is pending, or a handler has its repair or its edit. */
  ghost predicate Underway(s: State, id: string) {
    id in s.q.pending || exists h :: HeldBy(s, h, id)
  }

  /** Some run, in which the event is not delivered anew, brings the client its edit. */
  ghost predicate MayArrive(s: State, id: string) {
    exists steps :: Arrives(s, steps, id)
  }

  ghost predicate Arrives(s: State, steps: seq<Step>, id: string) {
    Possible(s, steps) && NotTracked(steps, id) && Run(s, steps).received[id] > s.received[id]
  }

  lemma TurnKeepsGone(s: State, h: nat, outcome: Outcome, id: string)
    requires s.q.Covered() && Enabled(s, Turn(h, outcome)) && !Underway(s, id)
    ensures var s' := Next(s, Turn(h, outcome));
            s'.q.Covered() && !Underway(s', id) && s'.received == s.received
  {
    var todo := s.handlers[h].todo;
    assert !HeldBy(s, h, id);
    assert Ids(todo)[0] == todo[0].id && Ids(todo[1..]) == Ids(todo)[1..];
    RequeueConsistent(s.q, todo[0]);
    var s' := Next(s, Turn(h, outcome));
    forall other
      ensures !HeldBy(s', other, id)
    {
      assert !HeldBy(s, other, id);
    }
  }

  lemma TakeKeepsGone(s: State, h: nat, id: string)
    requires s.q.Covered() && Enabled(s, Takes(h)) && !Underway(s, id)
    ensures var s' := Next(s, Takes(h));
            s'.q.Covered() && !Underway(s', id)
  {
    TakePartition(s.q);
    var s' := Next(s, Takes(h));
    assert id !in Elems(Ids(Taken(s.q)));
    forall other
      ensures !HeldBy(s', other, id)
    {
      assert !HeldBy(s, other, id);
    }
  }

  lemma TrackKeepsGone(q: Queue, room: string, event: Json, session: Option<string>, id: string)
    requires q.Covered() && id !in q.pending && GetStr(event, "event_id") != Some(id)
    ensures Track(q, room, event, session).Covered() && id !in Track(q, room, event, session).pending
  {
    TrackKeeps(q, room, event, session);
    TrackBounds(q, room, event, session);
  }

  lemma StepKeepsGone(s: State, step: Step, id: string)
    requires s.q.Covered() && Enabled(s, step) && NotTracked([step], id) && !Underway(s, id)
    ensures var s' := Next(s, step);
            s'.q.Covered() && !Underway(s', id) && s'.received[id] == s.received[id]
  {
    var s' := Next(s, step);
    match step
    case Tracks(room, event, session) =>
      assert step in [step];
      TrackKeepsGone(s.q, room, event, session, id);
      assert forall h :: HeldBy(s', h, id) == HeldBy(s, h, id);
    case Takes(h) => TakeKeepsGone(s, h, id);
    case Turn(h, outcome) => TurnKeepsGone(s, h, outcome, id);
    case Delivers(h) =>
      assert !HeldBy(s, h, id);
      assert forall other :: HeldBy(s', other, id) ==> HeldBy(s, other, id);
    case _ => assert forall other :: HeldBy(s', other, id) ==> HeldBy(s, other, id);
  }

  lemma {:induction false} GoneStaysGone(s: State, steps: seq<Step>, id: string)
    requires s.q.Covered() && Possible(s, steps) && NotTracked(steps, id) && !Underway(s, id)
    ensures Run(s, steps).received[id] == s.received[id]
    decreases |steps|
  {
    if steps == [] {
    } else {
      assert steps[0] in steps && forall step :: step in steps[1..] ==> step in steps;
      StepKeepsGone(s, steps[0], id);
      GoneStaysGone(Next(s, steps[0]), steps[1..], id);
    }
  }

  // ----- How it can still arrive

  lemma RunFirst(s: State, step: Step, steps: seq<Step>)
    requires Enabled(s, step) && Possible(Next(s, step), steps)
    ensures Possible(s, [step] + steps) && Run(s, [step] + steps) == Run(Next(s, step), steps)
  {
    assert ([step] + steps)[1..] == steps;
  }

  lemma ArrivesFirst(s: State, step: Step, steps: seq<Step>, id: string)
    requires Enabled(s, step) && !step.Tracks? && Next(s, step).received == s.received
    requires Arrives(Next(s, step), steps, id)
    ensures Arrives(s, [step] + steps, id)
  {
    RunFirst(s, step, steps);
  }

  lemma SentArrives(s: State, h: nat, id: string)
    requires h in s.handlers && s.handlers[h].Sent? && id in s.handlers[h].edits
    ensures Arrives(s, [Delivers(h)], id)
  {
    assert Possible(Next(s, Delivers(h)), []);
    RunFirst(s, Delivers(h), []);
    assert [Delivers(h)] + [] == [Delivers(h)];
    assert multiset(s.handlers[h].edits)[id] > 0;
  }

  /** A handler that decrypts all it has, and whose response is delivered. */
  lemma {:induction false} HeldArrives(s: State, h: nat, id: string) returns (steps: seq<Step>)
    requires HeldBy(s, h, id)
    ensures Arrives(s, steps, id)
    decreases if s.handlers[h].Sent? then 0 else 1 + |s.handlers[h].todo|
  {
    if s.handlers[h].Sent? {
      steps := [Delivers(h)];
      SentArrives(s, h, id);
    } else {
      var todo := s.handlers[h].todo;
      var step := if todo == [] then Responds(h) else Turn(h, Appended);
      if todo != [] {
        assert Ids(todo)[0] == todo[0].id && Ids(todo[1..]) == Ids(todo)[1..];
      }
      var rest := HeldArrives(Next(s, step), h, id);
      ArrivesFirst(s, step, rest, id);
      steps := [step] + rest;
    }
  }

  /** A bulk import makes a pending event ready, and a handler takes it. */
  lemma PendingArrives(s: State, id: string) returns (steps: seq<Step>)
    requires s.q.Covered() && id in s.q.pending
    ensures Arrives(s, steps, id)
  {
    var h := FreshId(s.handlers.Keys);
    var s1 := Next(s, Bulk);
    NotesWake(s.q, {});
    TakePartition(s1.q);
    assert id in Elems(Ids(Taken(s1.q)));
    assert HeldBy(Next(s1, Takes(h)), h, id);
    var rest := HeldArrives(Next(s1, Takes(h)), h, id);
    ArrivesFirst(s1, Takes(h), rest, id);
    ArrivesFirst(s, Bulk, [Takes(h)] + rest, id);
    steps := [Bulk] + ([Takes(h)] + rest);
  }

  /** Short of a new delivery of its event, an edit may still reach the client if and only if
      the event is pending or a handler has its repair or its edit. */
  lemma MayArriveExactlyIfUnderway(s: State, id: string)
    requires s.q.Covered()
    ensures MayArrive(s, id) <==> Underway(s, id)
  {
    if id in s.q.pending {
      var steps := PendingArrives(s, id);
    } else if Underway(s, id) {
      var h :| HeldBy(s, h, id);
      var steps := HeldArrives(s, h, id);
    } else {
      forall steps
        ensures !Arrives(s, steps, id)
      {
        if Possible(s, steps) && NotTracked(steps, id) {
          GoneStaysGone(s, steps, id);
        }
      }
    }
  }

  /** No one but this handler has the event. */
  ghost predicate OnlyWith(s: State, h: nat, id: string) {
    id !in s.q.pending && HeldBy(s, h, id) && forall other :: HeldBy(s, other, id) ==> other == h
  }

  lemma StepKeepsQueue(s: State, step: Step)
    requires s.q.Covered() && Enabled(s, step)
    ensures Next(s, step).q.Covered()
  {
    match step
    case Tracks(room, event, session) => TrackKeeps(s.q, room, event, session);
    case Takes(_) => TakePartition(s.q);
    case Turn(h, _) => RequeueConsistent(s.q, s.handlers[h].todo[0]);
    case _ =>
  }

  /** The event's turn comes and is settled, with nothing of it in the response yet. */
  predicate SettlesLast(s: State, step: Step, h: nat, id: string)
    requires Enabled(s, step)
  {
    && step.Turn? && step.h == h && step.outcome.Settled? && s.handlers[h].todo[0].id == id
    && id !in s.handlers[h].edits && id !in Ids(s.handlers[h].todo[1..])
  }

  lemma TurnAndHold(s: State, h: nat, outcome: Outcome, id: string)
    requires Enabled(s, Turn(h, outcome)) && OnlyWith(s, h, id)
    ensures Underway(Next(s, Turn(h, outcome)), id) <==> !SettlesLast(s, Turn(h, outcome), h, id)
  {
    var s' := Next(s, Turn(h, outcome));
    var todo, rest := s.handlers[h].todo, s.handlers[h].todo[1..];
    assert Ids(todo)[0] == todo[0].id && Ids(rest) == Ids(todo)[1..];
    assert Ids(todo) == [todo[0].id] + Ids(rest);
    assert forall other :: other != h ==> HeldBy(s', other, id) == HeldBy(s, other, id);
    if outcome.Requeued? && todo[0].id == id {
      assert id in s'.q.pending;
    } else {
      assert Underway(s', id) <==> HeldBy(s', h, id);
    }
  }

  /** A repair that one handler has taken: of all steps, one takes away every chance of its
      edit if and only if it cuts the handler off, delivers the response, or settles the
      repair without an edit. So the edit of a repair that can be decrypted is lost exactly by
      a client that hangs up or a response that does not arrive. */
  lemma LostExactlyIfCutOff(s: State, h: nat, id: string, step: Step)
    requires s.q.Covered() && OnlyWith(s, h, id) && Enabled(s, step) && NotTracked([step], id)
    ensures MayArrive(Next(s, step), id)
            <==> step != CutsOff(h) && step != Delivers(h) && !SettlesLast(s, step, h, id)
    ensures step == Delivers(h) && s.handlers[h].Sent? ==> Next(s, step).received[id] > s.received[id]
  {
    var s' := Next(s, step);
    StepKeepsQueue(s, step);
    MayArriveExactlyIfUnderway(s', id);
    if step == CutsOff(h) || step == Delivers(h) {
      assert forall other :: HeldBy(s', other, id) ==> HeldBy(s, other, id) && other != h;
      assert step == Delivers(h) ==> multiset(s.handlers[h].edits)[id] > 0;
    } else if step.Turn? && step.h == h {
      TurnAndHold(s, h, step.outcome, id);
    } else {
      assert HeldBy(s', h, id);
    }
  }

  /** Such a loss can happen to every ready event. */
  lemma ReadyCanBeLost(s: State, h: nat, id: string)
    requires s.q.Covered() && s.handlers == map[] && id in s.q.ReadyIds()
    ensures var s' := Next(s, Takes(h));
            OnlyWith(s', h, id) && !MayArrive(Next(s', CutsOff(h)), id)
  {
    TakePartition(s.q);
    var s' := Next(s, Takes(h));
    assert id in Elems(Ids(Taken(s.q)));
    assert HeldBy(s', h, id);
    StepKeepsQueue(s, Takes(h));
    LostExactlyIfCutOff(s', h, id, CutsOff(h));
  }
}
