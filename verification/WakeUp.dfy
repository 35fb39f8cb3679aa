/** Long-polling syncs and the keys that come meanwhile: listening before looking loses
    no wake-up. */
module WakeUp {
  import opened Seqs
  import opened Json
  import opened RepairQueue

  /** An incremental sync: it has enabled its waiter (at the ticket, the notifications so
      far), then looked and parked, or is answering. A parked one notes in `late` the
      events that were queued after it looked. */
  datatype Handler =
    | Listening(ticket: nat)
    | Parked(ticket: nat, late: set<string>)
    | Answering

  datatype State = State(q: Queue, handlers: map<nat, Handler>)

  datatype Step =
    | Listens(h: nat)
    | Looks(h: nat)
    | Fires(h: nat)
    | UpstreamAnswers(h: nat)
    | Tracks(room: string, event: Json, session: Option<string>)
    | PutsBack(repair: PendingRepair)
    | Keys(sessions: set<string>)
    | Bulk
    | Takes

  predicate Enabled(s: State, step: Step) {
    match step
    case Listens(h) => h !in s.handlers
    case Looks(h) => h in s.handlers && s.handlers[h].Listening?
    case Fires(h) => h in s.handlers && s.handlers[h].Parked? && s.q.wakes > s.handlers[h].ticket
    case UpstreamAnswers(h) => h in s.handlers && s.handlers[h].Parked?
    case _ => true
  }

  /** Parked handlers note a newly queued event. */
  function Late(handlers: map<nat, Handler>, id: string): map<nat, Handler> {
    map h | h in handlers ::
      if handlers[h].Parked? then handlers[h].(late := handlers[h].late + {id}) else handlers[h]
  }

  function Next(s: State, step: Step): State
    requires Enabled(s, step)
  {
    match step
    case Listens(h) => s.(handlers := s.handlers[h := Listening(s.q.wakes)])
    case Looks(h) =>
      s.(handlers := s.handlers[h := if s.q.AnyReady() then Answering else Parked(s.handlers[h].ticket, {})])
    case Fires(h) => s.(handlers := s.handlers[h := Answering])
    case UpstreamAnswers(h) => s.(handlers := s.handlers[h := Answering])
    case Tracks(room, event, session) =>
      var id := GetStr(event, "event_id");
      State(Track(s.q, room, event, session),
            if id.Some? && id.value !in s.q.pending then Late(s.handlers, id.value) else s.handlers)
    case PutsBack(repair) => State(Requeue(s.q, repair), Late(s.handlers, repair.id))
    case Keys(sessions) => s.(q := NoteKeys(s.q, sessions))
    case Bulk => s.(q := NoteBulk(s.q))
    case Takes => s.(q := AfterTake(s.q))
  }

  predicate Possible(s: State, steps: seq<Step>)
    decreases |steps|
  {
    steps == [] || (Enabled(s, steps[0]) && Possible(Next(s, steps[0]), steps[1..]))
  }

  function Run(s: State, steps: seq<Step>): State
    requires Possible(s, steps)
    decreases |steps|
  {
    if steps == [] then s else Run(Next(s, steps[0]), steps[1..])
  }

  /** A handler misses nothing: if it is parked and will not fire, whatever is ready was
      queued after it looked. */
  ghost predicate MissesNothing(q: Queue, handler: Handler) {
    match handler
    case Listening(ticket) => ticket <= q.wakes
    case Parked(ticket, late) => ticket <= q.wakes && (ticket == q.wakes ==> q.ReadyIds() <= late)
    case Answering => true
  }

  ghost predicate Inv(s: State) {
    s.q.Covered() && forall h :: h in s.handlers ==> MissesNothing(s.q, s.handlers[h])
  }

  lemma InitialIsFine()
    ensures Inv(State(Queue(map[], [], {}, false, 0), map[]))
  {
  }

  lemma TrackReady(q: Queue, room: string, event: Json, session: Option<string>)
    ensures var q' := Track(q, room, event, session);
            var id := GetStr(event, "event_id");
            && q'.wakes == q.wakes
            && q'.ReadyIds() <= q.ReadyIds() + if id.Some? && id.value !in q.pending then {id.value} else {}
  {
    TrackBounds(q, room, event, session);
    var id := GetStr(event, "event_id");
    if id.Some? && id.value !in q.pending {
      TrimIsLast(Requeue(q, PendingRepair(room, id.value, session, event)));
    }
  }

  /** A note that does not wake leaves nothing ready. */
  lemma NoteQuiet(q: Queue, sessions: set<string>)
    ensures NoteKeys(q, sessions).wakes >= q.wakes && NoteBulk(q).wakes >= q.wakes
    ensures NoteKeys(q, sessions).wakes == q.wakes ==> NoteKeys(q, sessions).ReadyIds() == {}
    ensures NoteBulk(q).wakes == q.wakes ==> NoteBulk(q).ReadyIds() == {}
  {
    NotesWake(q, sessions);
  }

  lemma StepMissesNothing(s: State, step: Step, h: nat)
    requires Inv(s) && Enabled(s, step) && h in Next(s, step).handlers
    ensures MissesNothing(Next(s, step).q, Next(s, step).handlers[h])
  {
    assert h in s.handlers ==> MissesNothing(s.q, s.handlers[h]);
    match step
    case Looks(_) => AnyReadyIds(s.q);
    case Tracks(room, event, session) => TrackReady(s.q, room, event, session);
    case Keys(sessions) => NoteQuiet(s.q, sessions);
    case Bulk => NoteQuiet(s.q, {});
    case Takes => TakePartition(s.q);
    case _ =>
  }

  lemma StepKeepsInv(s: State, step: Step)
    requires Inv(s) && Enabled(s, step)
    ensures Inv(Next(s, step))
  {
    forall h | h in Next(s, step).handlers
      ensures MissesNothing(Next(s, step).q, Next(s, step).handlers[h])
    {
      StepMissesNothing(s, step, h);
    }
    match step
    case Tracks(room, event, session) => TrackKeeps(s.q, room, event, session);
    case PutsBack(repair) => RequeueConsistent(s.q, repair);
    case Takes => TakePartition(s.q);
    case _ =>
  }

  /** In every interleaving, a parked sync that will not fire overlooks no repair except
      those queued after it looked. */
  lemma {:induction false} NoLostWakeUp(s: State, steps: seq<Step>)
    requires Inv(s) && Possible(s, steps)
    ensures Inv(Run(s, steps))
    decreases |steps|
  {
    if steps == [] {
    } else {
      StepKeepsInv(s, steps[0]);
      NoLostWakeUp(Next(s, steps[0]), steps[1..]);
    }
  }

  /** A note that leaves a pending repair ready reaches every sync that has enabled its
      waiter: a parked one fires, and one yet to look sees the repair, or parks and fires
      at once if another has taken it meanwhile. */
  lemma NoteReachesListeners(s: State, note: Step, steps: seq<Step>, h: nat)
    requires Inv(s) && (note.Keys? || note.Bulk?) && Next(s, note).q.ReadyIds() != {}
    requires Possible(Next(s, note), steps) && forall step :: step in steps ==> !ConcernsHandler(step, h)
    requires h in s.handlers && !s.handlers[h].Answering?
    ensures var s' := Run(Next(s, note), steps);
            && h in s'.handlers
            && if s.handlers[h].Parked? then Enabled(s', Fires(h))
               else Enabled(s', Looks(h))
                    && (var s'' := Next(s', Looks(h));
                        if s'.q.AnyReady() then s''.handlers[h].Answering? else Enabled(s'', Fires(h)))
  {
    NotesWake(s.q, if note.Keys? then note.sessions else {});
    assert MissesNothing(s.q, s.handlers[h]);
    StaysNotified(Next(s, note), steps, h);
  }

  predicate ConcernsHandler(step: Step, h: nat) {
    (step.Looks? || step.Fires? || step.UpstreamAnswers?) && step.h == h
  }

  lemma {:induction false} StaysNotified(s: State, steps: seq<Step>, h: nat)
    requires Possible(s, steps) && forall step :: step in steps ==> !ConcernsHandler(step, h)
    requires h in s.handlers && !s.handlers[h].Answering? && s.handlers[h].ticket < s.q.wakes
    ensures var s' := Run(s, steps);
            && h in s'.handlers && !s'.handlers[h].Answering?
            && (s'.handlers[h].Parked? <==> s.handlers[h].Parked?)
            && s'.handlers[h].ticket < s'.q.wakes
    decreases |steps|
  {
    if steps == [] {
    } else {
      assert steps[0] in steps && forall step :: step in steps[1..] ==> step in steps;
      match steps[0] {
        case Tracks(room, event, session) => TrackReady(s.q, room, event, session);
        case _ =>
      }
      StaysNotified(Next(s, steps[0]), steps[1..], h);
    }
  }

  /** Looking before listening would lose it: keys that come in between leave a repair
      ready, and the waiter, enabled after, does not fire. */
  lemma LookThenListenLoses(q: Queue, sessions: set<string>)
    requires !q.AnyReady() && NoteKeys(q, sessions).ReadyIds() != {}
    ensures var q' := NoteKeys(q, sessions);
            !MissesNothing(q', Parked(q'.wakes, {}))
  {
  }
}
