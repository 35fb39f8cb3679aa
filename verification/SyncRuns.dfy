/** Runs of a syncing client, the proxy and the homeserver: what the client has accepted
    and what the crypto library has been handed, whatever is lost, repeated or fails. */
module SyncRuns {
  import opened Seqs
  import opened SeenToDevice

  type Event = nat

  /** A position in the homeserver's streams of timeline and to-device events. */
  datatype Token = Token(timeline: nat, toDevice: nat)

  datatype Entry = Server(event: Event) | SyntheticEdit(id: string)

  /** The homeserver's answer to a sync. */
  datatype Answer = Answer(next: Token, timeline: seq<Event>, toDevice: seq<Key>)

  datatype Phase = Upstream | Answered(answer: Answer) | Ready(next: Token, entries: seq<Entry>)

  /** A /sync of the client that the proxy is serving. */
  datatype Request = Request(since: Token, phase: Phase)

  datatype World = World(
    // The homeserver: everything sent so far, and the to-device events acknowledged.
    timeline: seq<Event>, toDevice: seq<Key>, acked: nat,
    // The client: its position, what it has accepted, and the request it waits for.
    token: Token, accepted: seq<Entry>, waiting: Option<nat>,
    // The proxy: requests in flight, the memory of to-device events since it started,
    // and the keys handed to the crypto library in a successful batch, ever.
    requests: map<nat, Request>, seen: State, handed: set<Key>)

  /** Nothing has happened yet. */
  predicate Initial(w: World) {
    && w.timeline == [] && w.toDevice == [] && w.acked == 0
    && w.token == Token(0, 0) && w.accepted == [] && w.waiting.None?
    && w.requests == map[] && w.seen == State([], []) && w.handed == {}
  }

  datatype Step =
    | Posts(event: Event)
    | SendsToDevice(key: Key)
    | Asks(id: nat)
    | Answers(id: nat, next: Token)
    | Processes(id: nat, ok: bool, edits: seq<string>)
    | RepairsOnly(id: nat, seenUpstream: bool, edits: seq<string>)
    // The client hangs up while the to-device events are being processed.
    | HangsUp(id: nat)
    | Fails(id: nat)
    | Delivers(id: nat)
    | Restarts

  predicate Reaches(a: Token, b: Token) {
    a.timeline <= b.timeline && a.toDevice <= b.toDevice
  }

  predicate Enabled(w: World, step: Step) {
    match step
    case Asks(id) => id !in w.requests
    case Answers(id, next) =>
      && id in w.requests && w.requests[id].phase.Upstream?
      && Reaches(w.requests[id].since, next) && Reaches(next, Token(|w.timeline|, |w.toDevice|))
    case Processes(id, _, _) => id in w.requests && w.requests[id].phase.Answered?
    case HangsUp(id) => id in w.requests && w.requests[id].phase.Answered?
    case RepairsOnly(id, _, _) => id in w.requests && w.requests[id].phase.Upstream?
    case Fails(id) => id in w.requests
    case Delivers(id) => id in w.requests && w.requests[id].phase.Ready?
    case _ => true
  }

  function Max(a: nat, b: nat): nat {
    if a < b then b else a
  }

  /** A request acknowledges the to-device events before its position; the homeserver
      has them no more. */
  function AnswerTo(w: World, since: Token, next: Token): Answer
    requires Reaches(since, next) && Reaches(next, Token(|w.timeline|, |w.toDevice|))
  {
    var from := Max(w.acked, since.toDevice);
    Answer(next, w.timeline[since.timeline..next.timeline],
           if from <= next.toDevice then w.toDevice[from..next.toDevice] else [])
  }

  function Relay(events: seq<Event>, edits: seq<string>): seq<Entry> {
    seq(|events|, i requires 0 <= i < |events| => Server(events[i]))
    + seq(|edits|, i requires 0 <= i < |edits| => SyntheticEdit(edits[i]))
  }

  function Next(w: World, step: Step): World
    requires Enabled(w, step)
  {
    match step
    case Posts(event) => w.(timeline := w.timeline + [event])
    case SendsToDevice(key) => w.(toDevice := w.toDevice + [key])
    case Asks(id) => w.(requests := w.requests[id := Request(w.token, Upstream)], waiting := Some(id))
    case Answers(id, next) =>
      var since := w.requests[id].since;
      w.(acked := Max(w.acked, since.toDevice),
         requests := w.requests[id := Request(since, Answered(AnswerTo(w, since, next)))])
    case Processes(id, ok, edits) =>
      // Feed the to-device events to the crypto library, then hand the response on.
      var request := w.requests[id];
      var answer := request.phase.answer;
      var w' := w.(seen := SeenToDevice.Next(w.seen, Batch(answer.toDevice, ok)));
      if ok then
        w'.(handed := w.handed + Elems(NewKeys(w.seen.order, answer.toDevice)),
            requests := w.requests[id := request.(phase := Ready(answer.next, Relay(answer.timeline, edits)))])
      else w'.(requests := w.requests - {id})
    case RepairsOnly(id, seenUpstream, edits) =>
      // The client's own position is handed back; the upstream request is dropped,
      // though the homeserver may have seen it.
      var since := w.requests[id].since;
      w.(acked := if seenUpstream then Max(w.acked, since.toDevice) else w.acked,
         requests := w.requests[id := Request(since, Ready(since, Relay([], edits)))])
    case HangsUp(id) =>
      // What the batch has new stays remembered, neither handed over nor forgotten.
      w.(seen := SeenToDevice.Next(w.seen, Batch(w.requests[id].phase.answer.toDevice, true)),
         requests := w.requests - {id})
    case Fails(id) => w.(requests := w.requests - {id})
    case Delivers(id) =>
      // A response to a request the client has given up on is not looked at.
      var phase := w.requests[id].phase;
      var w' := w.(requests := w.requests - {id});
      if w.waiting == Some(id) then
        w'.(token := phase.next, accepted := w.accepted + phase.entries, waiting := None)
      else w'
    case Restarts => w.(requests := map[], seen := State([], []), waiting := None)
  }

  predicate Possible(w: World, steps: seq<Step>)
    decreases |steps|
  {
    steps == [] || (Enabled(w, steps[0]) && Possible(Next(w, steps[0]), steps[1..]))
  }

  function Run(w: World, steps: seq<Step>): World
    requires Possible(w, steps)
    decreases |steps|
  {
    if steps == [] then w else Run(Next(w, steps[0]), steps[1..])
  }

  // ----- Safety

  /** The homeserver's events among the entries. */
  function ServerPart(entries: seq<Entry>): seq<Event> {
    if entries == [] then []
    else
      var e := entries[|entries| - 1];
      ServerPart(entries[..|entries| - 1]) + if e.Server? then [e.event] else []
  }

  lemma {:induction false} ServerPartConcat(a: seq<Entry>, b: seq<Entry>)
    ensures ServerPart(a + b) == ServerPart(a) + ServerPart(b)
  {
    if b == [] {
      assert a + b == a;
    } else {
      ServerPartConcat(a, b[..|b| - 1]);
      assert (a + b)[..|a + b| - 1] == a + b[..|b| - 1];
    }
  }

  lemma {:induction false} ServerPartOfRelay(events: seq<Event>, edits: seq<string>)
    ensures ServerPart(Relay(events, edits)) == events
  {
    if edits != [] {
      var before := edits[..|edits| - 1];
      assert Relay(events, edits)[..|events| + |edits| - 1] == Relay(events, before);
      ServerPartOfRelay(events, before);
    } else if events != [] {
      var before := events[..|events| - 1];
      assert Relay(events, edits)[..|events| - 1] == Relay(before, []);
      ServerPartOfRelay(before, []);
    }
  }

  /** Are the to-device events in the range all among the keys? */
  ghost predicate AllIn(toDevice: seq<Key>, from: nat, to: nat, keys: set<Key>)
    requires to <= |toDevice|
  {
    forall i :: from <= i < to ==> toDevice[i] in keys
  }

  /** The events are the newest ones before a position. */
  ghost predicate EndsAt(toDevice: seq<Key>, events: seq<Key>, to: nat)
    requires to <= |toDevice|
  {
    |events| <= to && events == toDevice[to - |events|..to]
  }

  /** What is known of a request in flight: what its answer brings of the timeline... */
  ghost predicate CursorOk(w: World, request: Request) {
    var since := request.since;
    && Reaches(since, w.token)
    && match request.phase
       case Upstream => true
       case Answered(answer) =>
         && Reaches(since, answer.next) && Reaches(answer.next, Token(|w.timeline|, |w.toDevice|))
         && answer.timeline == w.timeline[since.timeline..answer.next.timeline]
       case Ready(next, entries) =>
         && Reaches(since, next) && Reaches(next, Token(|w.timeline|, |w.toDevice|))
         && ServerPart(entries) == w.timeline[since.timeline..next.timeline]
  }

  /** ...and that no to-device event it takes the client past is left out. */
  ghost predicate RequestOk(w: World, request: Request) {
    && CursorOk(w, request)
    && match request.phase
       case Upstream => true
       case Answered(answer) =>
         && AllIn(w.toDevice, request.since.toDevice, answer.next.toDevice, Elems(answer.toDevice) + w.handed)
         && EndsAt(w.toDevice, answer.toDevice, answer.next.toDevice)
         && answer.next.toDevice - |answer.toDevice| <= w.token.toDevice
       case Ready(next, entries) => AllIn(w.toDevice, request.since.toDevice, next.toDevice, w.handed)
  }

  /** The cursor: no gap and no repeat. */
  ghost predicate CursorSafe(w: World) {
    && Reaches(w.token, Token(|w.timeline|, |w.toDevice|)) && w.acked <= w.token.toDevice
    && ServerPart(w.accepted) == w.timeline[..w.token.timeline]
    && (forall id :: id in w.requests ==> CursorOk(w, w.requests[id]))
    && (w.waiting.Some? && w.waiting.value in w.requests ==> w.requests[w.waiting.value].since == w.token)
  }

  ghost predicate Safe(w: World) {
    && CursorSafe(w)
    // Nothing the client has moved past was withheld from the crypto library.
    && AllIn(w.toDevice, 0, w.token.toDevice, w.handed)
    && Inv(w.seen) && OnceWithinCapacity(w.seen.log) && Elems(OkKeys(w.seen.log)) <= w.handed
    && (forall id :: id in w.requests ==> RequestOk(w, w.requests[id]))
  }

  lemma {:induction false} IncomingIsKnown(order: seq<Key>, incoming: seq<Key>)
    ensures Elems(incoming) <= Elems(order) + Elems(NewKeys(order, incoming))
    ensures Elems(AfterAll(order, incoming)) <= Elems(order) + Elems(NewKeys(order, incoming))
  {
    if incoming == [] {
    } else {
      var before, key := incoming[..|incoming| - 1], incoming[|incoming| - 1];
      IncomingIsKnown(order, before);
      assert incoming == before + [key];
      ElemsConcat(before, [key]);
      ElemsConcat(NewKeys(order, before), [key]);
      ElemsConcat(AfterAll(order, before), [key]);
      assert key in AfterAll(order, before) ==> key in Elems(AfterAll(order, before));
    }
  }

  /** A step of the homeserver only adds to what requests may see. */
  lemma GrowthKeepsSafe(w: World, timeline: seq<Event>, toDevice: seq<Key>)
    requires Safe(w) && w.timeline <= timeline && w.toDevice <= toDevice
    ensures Safe(w.(timeline := timeline, toDevice := toDevice))
  {
    var w' := w.(timeline := timeline, toDevice := toDevice);
    assert timeline[..w.token.timeline] == w.timeline[..w.token.timeline];
    forall id | id in w.requests
      ensures RequestOk(w', w'.requests[id])
    {
      var r := w.requests[id];
      assert RequestOk(w, r);
      match r.phase
      case Upstream =>
      case Answered(answer) =>
        assert timeline[r.since.timeline..answer.next.timeline] == w.timeline[r.since.timeline..answer.next.timeline];
      case Ready(next, _) =>
        assert timeline[r.since.timeline..next.timeline] == w.timeline[r.since.timeline..next.timeline];
    }
  }

  /** An answer covers every to-device event in its range that was not acknowledged, and
      what was acknowledged has been handed over. */
  lemma AnswerCovers(w: World, since: Token, next: Token)
    requires Safe(w) && Reaches(since, w.token)
    requires Reaches(since, next) && Reaches(next, Token(|w.timeline|, |w.toDevice|))
    ensures AllIn(w.toDevice, since.toDevice, next.toDevice, Elems(AnswerTo(w, since, next).toDevice) + w.handed)
  {
    var from := Max(w.acked, since.toDevice);
    var sent := AnswerTo(w, since, next).toDevice;
    forall i | since.toDevice <= i < next.toDevice
      ensures w.toDevice[i] in Elems(sent) + w.handed
    {
      if i >= from {
        assert sent[i - from] == w.toDevice[i];
      }
    }
  }

  lemma AnswersKeepsSafe(w: World, id: nat, next: Token)
    requires Safe(w) && Enabled(w, Answers(id, next))
    ensures Safe(Next(w, Answers(id, next)))
  {
    var since := w.requests[id].since;
    assert RequestOk(w, w.requests[id]);
    AnswerCovers(w, since, next);
    var w' := Next(w, Answers(id, next));
    forall other | other in w'.requests
      ensures RequestOk(w', w'.requests[other])
    {
      assert other != id ==> RequestOk(w, w.requests[other]);
    }
  }

  lemma ProcessesKeepsSafe(w: World, id: nat, ok: bool, edits: seq<string>)
    requires Safe(w) && Enabled(w, Processes(id, ok, edits))
    ensures Safe(Next(w, Processes(id, ok, edits)))
  {
    var answer := w.requests[id].phase.answer;
    assert RequestOk(w, w.requests[id]);
    var news := NewKeys(w.seen.order, answer.toDevice);
    var w' := Next(w, Processes(id, ok, edits));
    StepKeepsInv(w.seen, Batch(answer.toDevice, ok));
    StepKeepsOnce(w.seen, Batch(answer.toDevice, ok));
    OkKeysConcat(w.seen.log, Tag(news, ok));
    OkKeysOfTag(news, ok);
    ElemsConcat(OkKeys(w.seen.log), if ok then news else []);
    IncomingIsKnown(w.seen.order, answer.toDevice);
    SuffixElems(w.seen.order, OkKeys(w.seen.log));
    ServerPartOfRelay(answer.timeline, edits);
    forall other | other in w'.requests
      ensures RequestOk(w', w'.requests[other])
    {
      assert other != id ==> RequestOk(w, w.requests[other]);
    }
  }

  lemma SuffixElems(a: seq<Key>, s: seq<Key>)
    requires IsSuffix(a, s)
    ensures Elems(a) <= Elems(s)
  {
  }

  lemma RepairsOnlyKeepsSafe(w: World, id: nat, seenUpstream: bool, edits: seq<string>)
    requires Safe(w) && Enabled(w, RepairsOnly(id, seenUpstream, edits))
    ensures Safe(Next(w, RepairsOnly(id, seenUpstream, edits)))
  {
    var since := w.requests[id].since;
    assert RequestOk(w, w.requests[id]);
    ServerPartOfRelay([], edits);
    var w' := Next(w, RepairsOnly(id, seenUpstream, edits));
    assert w.timeline[since.timeline..since.timeline] == [];
    forall other | other in w'.requests
      ensures RequestOk(w', w'.requests[other])
    {
      assert other != id ==> RequestOk(w, w.requests[other]);
    }
  }

  lemma DeliversKeepsSafe(w: World, id: nat)
    requires Safe(w) && Enabled(w, Delivers(id))
    ensures Safe(Next(w, Delivers(id)))
  {
    var since, phase := w.requests[id].since, w.requests[id].phase;
    assert RequestOk(w, w.requests[id]);
    var w' := Next(w, Delivers(id));
    if w.waiting == Some(id) {
      ServerPartConcat(w.accepted, phase.entries);
      assert w.timeline[..since.timeline] + w.timeline[since.timeline..phase.next.timeline]
             == w.timeline[..phase.next.timeline];
    }
    forall other | other in w'.requests
      ensures RequestOk(w', w'.requests[other])
    {
      assert RequestOk(w, w.requests[other]);
    }
  }

  /** The batch that is given up had nothing that was not handed over before. */
  predicate NothingNew(w: World, id: nat)
    requires Enabled(w, HangsUp(id))
  {
    forall key :: key in NewKeys(w.seen.order, w.requests[id].phase.answer.toDevice) ==> key in w.handed
  }

  lemma HangsUpKeepsSafe(w: World, id: nat)
    requires Safe(w) && Enabled(w, HangsUp(id)) && NothingNew(w, id)
    ensures Safe(Next(w, HangsUp(id)))
  {
    var batch := Batch(w.requests[id].phase.answer.toDevice, true);
    var news := NewKeys(w.seen.order, batch.incoming);
    StepKeepsInv(w.seen, batch);
    StepKeepsOnce(w.seen, batch);
    OkKeysConcat(w.seen.log, Tag(news, true));
    OkKeysOfTag(news, true);
    ElemsConcat(OkKeys(w.seen.log), news);
    var w' := Next(w, HangsUp(id));
    forall other | other in w'.requests
      ensures RequestOk(w', w'.requests[other])
    {
      assert RequestOk(w, w.requests[other]);
    }
  }

  lemma StepKeepsSafe(w: World, step: Step)
    requires Safe(w) && Enabled(w, step) && (step.HangsUp? ==> NothingNew(w, step.id))
    ensures Safe(Next(w, step))
  {
    match step
    case Posts(event) => GrowthKeepsSafe(w, w.timeline + [event], w.toDevice);
    case SendsToDevice(key) => GrowthKeepsSafe(w, w.timeline, w.toDevice + [key]);
    case Asks(id) => AsksKeepsSafe(w, id);
    case Answers(id, next) => AnswersKeepsSafe(w, id, next);
    case Processes(id, ok, edits) => ProcessesKeepsSafe(w, id, ok, edits);
    case RepairsOnly(id, seenUpstream, edits) => RepairsOnlyKeepsSafe(w, id, seenUpstream, edits);
    case HangsUp(id) => HangsUpKeepsSafe(w, id);
    case Fails(id) => FailsKeepsSafe(w, id);
    case Delivers(id) => DeliversKeepsSafe(w, id);
    case Restarts => RestartsKeepsSafe(w);
  }

  lemma AsksKeepsSafe(w: World, id: nat)
    requires Safe(w) && Enabled(w, Asks(id))
    ensures Safe(Next(w, Asks(id)))
  {
    var w' := Next(w, Asks(id));
    forall other | other in w'.requests
      ensures RequestOk(w', w'.requests[other])
    {
      assert other != id ==> RequestOk(w, w.requests[other]);
    }
  }

  lemma FailsKeepsSafe(w: World, id: nat)
    requires Safe(w) && Enabled(w, Fails(id))
    ensures Safe(Next(w, Fails(id)))
  {
    var w' := Next(w, Fails(id));
    forall other | other in w'.requests
      ensures RequestOk(w', w'.requests[other])
    {
      assert RequestOk(w, w.requests[other]);
    }
  }

  /** Any sound memory will do once no request is in flight. */
  lemma MemoryKeepsSafe(w: World, seen: State)
    requires Safe(w)
    requires Inv(seen) && OnceWithinCapacity(seen.log) && Elems(OkKeys(seen.log)) <= w.handed
    ensures Safe(w.(requests := map[], seen := seen, waiting := None))
  {
  }

  lemma RestartsKeepsSafe(w: World)
    requires Safe(w)
    ensures Safe(Next(w, Restarts))
  {
    FreshMemory();
    MemoryKeepsSafe(w, State([], []));
  }

  lemma CursorGrows(w: World, timeline: seq<Event>, toDevice: seq<Key>)
    requires CursorSafe(w) && w.timeline <= timeline && w.toDevice <= toDevice
    ensures CursorSafe(w.(timeline := timeline, toDevice := toDevice))
  {
    var w' := w.(timeline := timeline, toDevice := toDevice);
    assert timeline[..w.token.timeline] == w.timeline[..w.token.timeline];
    forall id | id in w.requests
      ensures CursorOk(w', w'.requests[id])
    {
      var r := w.requests[id];
      assert CursorOk(w, r);
      match r.phase
      case Upstream =>
      case Answered(answer) =>
        assert timeline[r.since.timeline..answer.next.timeline] == w.timeline[r.since.timeline..answer.next.timeline];
      case Ready(next, _) =>
        assert timeline[r.since.timeline..next.timeline] == w.timeline[r.since.timeline..next.timeline];
    }
  }

  lemma CursorDelivers(w: World, id: nat)
    requires CursorSafe(w) && Enabled(w, Delivers(id))
    ensures CursorSafe(Next(w, Delivers(id)))
  {
    var since, phase := w.requests[id].since, w.requests[id].phase;
    assert CursorOk(w, w.requests[id]);
    var w' := Next(w, Delivers(id));
    if w.waiting == Some(id) {
      ServerPartConcat(w.accepted, phase.entries);
      assert w.timeline[..since.timeline] + w.timeline[since.timeline..phase.next.timeline]
             == w.timeline[..phase.next.timeline];
    }
    forall other | other in w'.requests
      ensures CursorOk(w', w'.requests[other])
    {
      assert CursorOk(w, w.requests[other]);
    }
  }

  lemma StepKeepsCursor(w: World, step: Step)
    requires CursorSafe(w) && Enabled(w, step)
    ensures CursorSafe(Next(w, step))
  {
    match step
    case Posts(event) => CursorGrows(w, w.timeline + [event], w.toDevice);
    case SendsToDevice(key) => CursorGrows(w, w.timeline, w.toDevice + [key]);
    case Delivers(id) => CursorDelivers(w, id);
    case Processes(id, ok, edits) =>
      ServerPartOfRelay(w.requests[id].phase.answer.timeline, edits);
      assert CursorOk(w, w.requests[id]);
    case RepairsOnly(id, _, edits) =>
      ServerPartOfRelay([], edits);
      assert CursorOk(w, w.requests[id]);
    case _ =>
  }

  /** Whatever is lost, cut off, retried, repaired or restarted: the homeserver events the
      client has accepted are exactly the server's timeline up to its position. */
  lemma {:induction false} CursorIsSafe(w: World, steps: seq<Step>)
    requires CursorSafe(w) && Possible(w, steps)
    ensures CursorSafe(Run(w, steps))
    ensures ServerPart(Run(w, steps).accepted) == Run(w, steps).timeline[..Run(w, steps).token.timeline]
    decreases |steps|
  {
    if steps == [] {
    } else {
      StepKeepsCursor(w, steps[0]);
      CursorIsSafe(Next(w, steps[0]), steps[1..]);
    }
  }

  /** And since the proxy started, no event is taken for new again within the memory's
      capacity once a batch with it was kept. */
  lemma {:induction false} TakenOnce(w: World, steps: seq<Step>)
    requires Inv(w.seen) && OnceWithinCapacity(w.seen.log) && Possible(w, steps)
    ensures Inv(Run(w, steps).seen) && OnceWithinCapacity(Run(w, steps).seen.log)
    decreases |steps|
  {
    if steps == [] {
    } else {
      match steps[0] {
        case Processes(id, ok, _) =>
          StepKeepsInv(w.seen, Batch(w.requests[id].phase.answer.toDevice, ok));
          StepKeepsOnce(w.seen, Batch(w.requests[id].phase.answer.toDevice, ok));
        case HangsUp(id) =>
          StepKeepsInv(w.seen, Batch(w.requests[id].phase.answer.toDevice, true));
          StepKeepsOnce(w.seen, Batch(w.requests[id].phase.answer.toDevice, true));
        case Restarts => FreshMemory();
        case _ =>
      }
      TakenOnce(Next(w, steps[0]), steps[1..]);
    }
  }

  /** No client hangs up while events that were never handed over are being processed. */
  predicate NoneCutOff(w: World, steps: seq<Step>)
    requires Possible(w, steps)
    decreases |steps|
  {
    steps == []
    || (&& (steps[0].HangsUp? ==> NothingNew(w, steps[0].id))
        && NoneCutOff(Next(w, steps[0]), steps[1..]))
  }

  /** The same, and if no new events are cut off, every to-device event the client has moved
      past was handed to the crypto library in a successful batch, and since the proxy started
      none was handed over again within the memory's capacity. */
  lemma {:induction false} SyncIsSafe(w: World, steps: seq<Step>)
    requires Safe(w) && Possible(w, steps) && NoneCutOff(w, steps)
    ensures Safe(Run(w, steps))
    ensures ServerPart(Run(w, steps).accepted) == Run(w, steps).timeline[..Run(w, steps).token.timeline]
    ensures NothingWithheld(Run(w, steps))
    ensures OnceWithinCapacity(Run(w, steps).seen.log)
    decreases |steps|
  {
    if steps == [] {
    } else {
      StepKeepsSafe(w, steps[0]);
      SyncIsSafe(Next(w, steps[0]), steps[1..]);
    }
  }

  /** Every to-device event the client has moved past was handed over. */
  ghost predicate NothingWithheld(w: World) {
    && Reaches(w.token, Token(|w.timeline|, |w.toDevice|))
    && AllIn(w.toDevice, 0, w.token.toDevice, w.handed)
  }

  lemma FreshMemory()
    ensures Inv(State([], [])) && OnceWithinCapacity([]) && Elems(OkKeys([])) == {}
  {
    RunsKeepInv([]);
    assert SeenToDevice.Run([]) == State([], []);
  }

  lemma InitialIsSafe(w: World)
    requires Initial(w)
    ensures Safe(w)
  {
    FreshMemory();
    assert ServerPart(w.accepted) == [] == w.timeline[..w.token.timeline];
  }

  /** A repair-only response moves no cursor: delivering it adds nothing but edits. */
  lemma RepairOnlyConsumesNothing(w: World, id: nat, seenUpstream: bool, edits: seq<string>)
    requires Safe(w) && Enabled(w, RepairsOnly(id, seenUpstream, edits)) && w.waiting == Some(id)
    ensures var w1 := Next(w, RepairsOnly(id, seenUpstream, edits));
            && Enabled(w1, Delivers(id))
            && (var w2 := Next(w1, Delivers(id));
                && w2.token == w.token
                && ServerPart(w2.accepted) == ServerPart(w.accepted)
                && |w2.accepted| == |w.accepted| + |edits|
                && w2.seen == w.seen && w2.handed == w.handed)
  {
    ServerPartOfRelay([], edits);
    ServerPartConcat(w.accepted, Relay([], edits));
  }

  // ----- A client that hangs up

  /** Nothing is ever withheld, whatever follows without new events being cut off. */
  ghost predicate NeverWithheld(w: World) {
    forall steps :: Possible(w, steps) && NoneCutOff(w, steps) ==> NothingWithheld(Run(w, steps))
  }

  lemma RunFirst(w: World, step: Step, steps: seq<Step>)
    requires Enabled(w, step) && !step.HangsUp? && Possible(Next(w, step), steps)
    ensures Possible(w, [step] + steps) && Run(w, [step] + steps) == Run(Next(w, step), steps)
    ensures NoneCutOff(w, [step] + steps) <==> NoneCutOff(Next(w, step), steps)
  {
    assert ([step] + steps)[1..] == steps;
  }

  /** The client asks again from its position, and accepts an answer up to `next`. */
  function Retry(id: nat, next: Token): seq<Step> {
    [Asks(id), Answers(id, next), Processes(id, true, []), Delivers(id)]
  }

  lemma FourRun(w: World, a: Step, b: Step, c: Step, d: Step)
    requires !a.HangsUp? && !b.HangsUp? && !c.HangsUp? && !d.HangsUp? && Enabled(w, a)
    requires var w1 := Next(w, a);
             Enabled(w1, b)
             && var w2 := Next(w1, b);
                Enabled(w2, c) && Enabled(Next(w2, c), d)
    ensures Possible(w, [a, b, c, d]) && NoneCutOff(w, [a, b, c, d])
    ensures Run(w, [a, b, c, d]) == Next(Next(Next(Next(w, a), b), c), d)
  {
    var w1 := Next(w, a);
    var w2 := Next(w1, b);
    var w3 := Next(w2, c);
    assert Possible(Next(w3, d), []) && NoneCutOff(Next(w3, d), []);
    RunFirst(w3, d, []);
    assert [d] + [] == [d];
    RunFirst(w2, c, [d]);
    assert [c] + [d] == [c, d];
    RunFirst(w1, b, [c, d]);
    assert [b] + [c, d] == [b, c, d];
    RunFirst(w, a, [b, c, d]);
    assert [a] + [b, c, d] == [a, b, c, d];
  }

  lemma RetryRuns(w: World, id: nat, next: Token)
    requires id !in w.requests && w.acked <= w.token.toDevice
    requires Reaches(w.token, next) && Reaches(next, Token(|w.timeline|, |w.toDevice|))
    ensures Possible(w, Retry(id, next)) && NoneCutOff(w, Retry(id, next))
    ensures var w' := Run(w, Retry(id, next));
            && w'.token == next && w'.toDevice == w.toDevice && w'.timeline == w.timeline
            && w'.handed
               == w.handed + Elems(NewKeys(w.seen.order, w.toDevice[w.token.toDevice..next.toDevice]))
  {
    var w1 := Next(w, Asks(id));
    var w2 := Next(w1, Answers(id, next));
    assert w2.requests[id].phase.answer == AnswerTo(w1, w.token, next) && w2.waiting == Some(id);
    FourRun(w, Asks(id), Answers(id, next), Processes(id, true, []), Delivers(id));
  }

  lemma {:induction false} DistinctWithin(s: seq<Key>, all: set<Key>)
    requires NoDup(s) && Elems(s) <= all
    ensures |s| <= |all|
  {
    if s == [] {
    } else {
      var a, x := s[..|s| - 1], s[|s| - 1];
      assert s == a + [x];
      NoDupAppend(a, x);
      assert x in Elems(s) && Elems(a) <= Elems(s);
      DistinctWithin(a, all - {x});
    }
  }

  lemma {:induction false} KeysAtMost(s: seq<Key>)
    ensures |Elems(s)| <= |s|
  {
    if s == [] {
    } else {
      var a, x := s[..|s| - 1], s[|s| - 1];
      assert s == a + [x];
      ElemsConcat(a, [x]);
      assert Elems([x]) == {x};
      KeysAtMost(a);
    }
  }

  lemma SuffixOfLast(n: nat, a: seq<Key>, s: seq<Key>)
    requires IsSuffix(a, s) && |a| <= n
    ensures IsSuffix(a, Last(n, s))
  {
  }

  /** What the memory took last stays in it, and is not new again, while no more keys than it
      can hold come round. */
  lemma {:induction false} NewestAreNotNew(order: seq<Key>, newest: seq<Key>, incoming: seq<Key>, all: set<Key>)
    requires Remembers(order) && IsSuffix(newest, order)
    requires Elems(newest) <= all && Elems(incoming) <= all && |all| <= SEEN_TO_DEVICE_CAPACITY
    ensures var taken := newest + NewKeys(order, incoming);
            NoDup(taken) && Elems(taken) <= all && IsSuffix(taken, AfterAll(order, incoming))
  {
    if incoming == [] {
      SuffixIsDistinct(newest, order);
      assert newest + [] == newest;
    } else {
      var before, key := incoming[..|incoming| - 1], incoming[|incoming| - 1];
      assert incoming == before + [key];
      assert Elems(before) <= Elems(incoming) && key in Elems(incoming);
      NewestAreNotNew(order, newest, before, all);
      var taken, memory := newest + NewKeys(order, before), AfterAll(order, before);
      if key !in memory {
        OneMoreNewest(memory, taken, key, all);
        assert taken + [key] == newest + NewKeys(order, incoming);
      }
    }
  }

  lemma SuffixIsDistinct(a: seq<Key>, s: seq<Key>)
    requires NoDup(s) && IsSuffix(a, s)
    ensures NoDup(a)
  {
    assert s == s[..|s| - |a|] + a;
    NoDupParts(s[..|s| - |a|], a);
  }

  lemma OneMoreNewest(memory: seq<Key>, taken: seq<Key>, key: Key, all: set<Key>)
    requires NoDup(taken) && Elems(taken) <= all && IsSuffix(taken, memory) && key !in memory
    requires key in all && |all| <= SEEN_TO_DEVICE_CAPACITY
    ensures NoDup(taken + [key]) && Elems(taken + [key]) <= all
    ensures IsSuffix(taken + [key], Insert(memory, key))
  {
    SuffixElems(taken, memory);
    assert key !in Elems(memory);
    NoDupAppend(taken, key);
    ElemsConcat(taken, [key]);
    DistinctWithin(taken + [key], all);
    AppendIsSuffix(taken, memory, [key]);
    SuffixOfLast(SEEN_TO_DEVICE_CAPACITY, taken + [key], memory + [key]);
  }

  lemma {:induction false} NewKeysWithin(order: seq<Key>, incoming: seq<Key>)
    ensures Elems(NewKeys(order, incoming)) <= Elems(incoming)
  {
    if incoming == [] {
    } else {
      var before, key := incoming[..|incoming| - 1], incoming[|incoming| - 1];
      NewKeysWithin(order, before);
      assert incoming == before + [key];
      ElemsConcat(before, [key]);
      ElemsConcat(NewKeys(order, before), [key]);
    }
  }

  /** A key that a batch left in the memory is not new to a retry of no more than the batch. */
  lemma NotNewAgain(order: seq<Key>, incoming: seq<Key>, again: seq<Key>, key: Key)
    requires Remembers(order) && |incoming| <= SEEN_TO_DEVICE_CAPACITY && Elems(again) <= Elems(incoming)
    requires key in NewKeys(order, incoming)
    ensures key !in Elems(NewKeys(AfterAll(order, incoming), again))
  {
    var news, memory := NewKeys(order, incoming), AfterAll(order, incoming);
    KeysAtMost(incoming);
    NewKeysWithin(order, incoming);
    AfterAllIsLast(order, incoming);
    assert IsSuffix([], order) && [] + news == news;
    NewestAreNotNew(order, [], incoming, Elems(incoming));
    NewestAreNotNew(memory, news, again, Elems(incoming));
    NoDupParts(news, NewKeys(memory, again));
    assert key in Elems(news);
  }

  /** The response brings no more to-device events than the memory can hold. */
  predicate FitsMemory(w: World, id: nat)
    requires Enabled(w, HangsUp(id))
  {
    |w.requests[id].phase.answer.toDevice| <= SEEN_TO_DEVICE_CAPACITY
  }

  /** Where an event of the batch that was never handed over stands: past the client's
      position, with nothing but the batch in between. */
  lemma Standing(w: World, id: nat, key: Key) returns (p: nat)
    requires Safe(w) && Enabled(w, HangsUp(id)) && key in w.requests[id].phase.answer.toDevice && key !in w.handed
    ensures w.token.toDevice <= p < |w.toDevice| && w.toDevice[p] == key
    ensures Elems(w.toDevice[w.token.toDevice..p + 1]) <= Elems(w.requests[id].phase.answer.toDevice)
  {
    var answer := w.requests[id].phase.answer;
    assert RequestOk(w, w.requests[id]);
    var j :| 0 <= j < |answer.toDevice| && answer.toDevice[j] == key;
    var first := answer.next.toDevice - |answer.toDevice|;
    p := first + j;
    assert w.toDevice[p] == key && w.token.toDevice <= p;
    PartOfTail(w.toDevice, answer.toDevice, answer.next.toDevice, w.token.toDevice, p + 1);
  }

  lemma PartOfTail(all: seq<Key>, events: seq<Key>, end: nat, from: nat, to: nat)
    requires end <= |all| && EndsAt(all, events, end) && end - |events| <= from <= to <= end
    ensures Elems(all[from..to]) <= Elems(events)
  {
    var first := end - |events|;
    PartOfPart(all, first, end, from - first, to - first);
    PartOf(events, from - first, to - first);
  }

  lemma PartOf(events: seq<Key>, i: nat, j: nat)
    requires i <= j <= |events|
    ensures Elems(events[i..j]) <= Elems(events)
  {
  }

  lemma RetryPasses(w: World, id: nat, p: nat)
    requires id !in w.requests && w.acked <= w.token.toDevice <= p < |w.toDevice|
    requires w.token.timeline <= |w.timeline| && w.toDevice[p] !in w.handed
    requires w.toDevice[p] !in Elems(NewKeys(w.seen.order, w.toDevice[w.token.toDevice..p + 1]))
    ensures var steps := Retry(id, Token(w.token.timeline, p + 1));
            && Possible(w, steps) && NoneCutOff(w, steps)
            && Run(w, steps).token.toDevice == p + 1 && Run(w, steps).toDevice == w.toDevice
            && w.toDevice[p] !in Run(w, steps).handed
  {
    RetryRuns(w, id, Token(w.token.timeline, p + 1));
  }

  lemma PastIsWithheld(w: World, p: nat)
    requires p < w.token.toDevice && p < |w.toDevice| && w.toDevice[p] !in w.handed
    ensures !NothingWithheld(w)
  {
  }

  /** If an event is not new when its turn comes, a retry takes the client past it and does
      not hand it over. */
  lemma RetryWithholds(w: World, p: nat) returns (steps: seq<Step>)
    requires w.acked <= w.token.toDevice <= p < |w.toDevice| && w.token.timeline <= |w.timeline|
    requires w.toDevice[p] !in w.handed
    requires w.toDevice[p] !in Elems(NewKeys(w.seen.order, w.toDevice[w.token.toDevice..p + 1]))
    ensures Possible(w, steps) && NoneCutOff(w, steps) && !NothingWithheld(Run(w, steps))
  {
    var id := FreshId(w.requests.Keys);
    steps := Retry(id, Token(w.token.timeline, p + 1));
    RetryPasses(w, id, p);
    PastIsWithheld(Run(w, steps), p);
  }

  /** New events are cut off: the client asks again, they are dropped as repeats, and the
      client moves past an event that the crypto library never got. */
  lemma CutOffIsWithheld(w: World, id: nat, key: Key)
    requires Safe(w) && Enabled(w, HangsUp(id)) && FitsMemory(w, id)
    requires key in NewKeys(w.seen.order, w.requests[id].phase.answer.toDevice) && key !in w.handed
    ensures !NeverWithheld(Next(w, HangsUp(id)))
  {
    var incoming := w.requests[id].phase.answer.toDevice;
    NewKeysCome(w.seen.order, incoming, key);
    var p := Standing(w, id, key);
    NotNewAgain(w.seen.order, incoming, w.toDevice[w.token.toDevice..p + 1], key);
    var steps := RetryWithholds(Next(w, HangsUp(id)), p);
  }

  lemma {:induction false} NewKeysCome(order: seq<Key>, incoming: seq<Key>, key: Key)
    requires key in NewKeys(order, incoming)
    ensures key in incoming
  {
    var before := incoming[..|incoming| - 1];
    if key in NewKeys(order, before) {
      NewKeysCome(order, before, key);
    }
  }

  /** A client that hangs up costs no to-device event, whatever follows, if and only if what
      was being processed had nothing that was not handed over before. The response is
      one of at most SEEN_TO_DEVICE_CAPACITY to-device events, whatever is remembered; of a
      larger one the memory loses the first events again, and takes those for new. */
  lemma HangingUpIsSafeExactlyIf(w: World, id: nat)
    requires Safe(w) && Enabled(w, HangsUp(id)) && FitsMemory(w, id)
    ensures NothingNew(w, id) <==> NeverWithheld(Next(w, HangsUp(id)))
  {
    if NothingNew(w, id) {
      var w' := Next(w, HangsUp(id));
      HangsUpKeepsSafe(w, id);
      forall steps | Possible(w', steps) && NoneCutOff(w', steps)
        ensures NothingWithheld(Run(w', steps))
      {
        SyncIsSafe(w', steps);
      }
    } else {
      var key :| key in NewKeys(w.seen.order, w.requests[id].phase.answer.toDevice) && key !in w.handed;
      CutOffIsWithheld(w, id, key);
    }
  }

  /** From the start: one to-device event, delivered and about to be cut off. */
  lemma CuttingOffIsReached(w: World, key: Key)
    requires Initial(w)
    ensures var steps := [SendsToDevice(key), Asks(0), Answers(0, Token(0, 1))];
            && Possible(w, steps) && NoneCutOff(w, steps)
            && (var w' := Run(w, steps);
                Safe(w') && Enabled(w', HangsUp(0)) && FitsMemory(w', 0) && !NothingNew(w', 0))
  {
    var send, ask, answer := SendsToDevice(key), Asks(0), Answers(0, Token(0, 1));
    var w1 := Next(w, send);
    var w2 := Next(w1, ask);
    var w3 := Next(w2, answer);
    assert Possible(w3, []) && NoneCutOff(w3, []) && Run(w3, []) == w3;
    RunFirst(w2, answer, []);
    RunFirst(w1, ask, [answer]);
    RunFirst(w, send, [ask, answer]);
    assert [answer] + [] == [answer] && [ask] + [answer] == [ask, answer];
    assert [send] + [ask, answer] == [send, ask, answer];
    InitialIsSafe(w);
    SyncIsSafe(w, [send, ask, answer]);
    var incoming := w3.requests[0].phase.answer.toDevice;
    assert incoming == [key] && incoming[..0] == [];
    assert NewKeys([], incoming) == [key];
  }
}
