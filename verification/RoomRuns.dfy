/** Scans and sends in any interleaving: each looks at the negative cache, the persisted
    settings and the homeserver in turn, and others go on in between. */
module RoomRuns {
  import opened Seqs
  import opened Json
  import opened Rooms

  /** A scan of state events, with those it has yet to look at, or a send: past the
      negative cache; past the settings, with the homeserver's answer to come; and with
      its room's state decided. Either may have marked its room as encrypted and await the
      crypto store. */
  datatype Task =
    | Scanning(room: string, todo: seq<Json>)
    | ScanPersisting(room: string, settings: Settings, todo: seq<Json>)
    | Checking(room: string)
    | Asking(room: string)
    | SendPersisting(room: string, settings: Settings)
    | Decided(room: string, encrypted: bool)
  {
    predicate Persisting() {
      ScanPersisting? || SendPersisting?
    }
  }

  datatype State = State(t: Tracker, tasks: map<nat, Task>, begun: set<nat>)

  datatype Step =
    | Scans(id: nat, room: string, events: seq<Json>)
    | ScansOn(id: nat)
    | Sends(id: nat, room: string)
    | Reads(id: nat, storeOk: bool)
    | Hears(id: nat, answer: Answer)
    // The store takes the settings, or refuses them.
    | Persists(id: nat, accepted: bool)
    // The body is read, prepared and forwarded, or that fails.
    | Forwards(id: nat)

  predicate Enabled(s: State, step: Step) {
    match step
    case Scans(id, _, _) => id !in s.begun
    case ScansOn(id) => id in s.tasks && s.tasks[id].Scanning?
    case Sends(id, _) => id !in s.begun
    case Reads(id, _) => id in s.tasks && s.tasks[id].Checking?
    case Hears(id, _) => id in s.tasks && s.tasks[id].Asking?
    case Persists(id, _) => id in s.tasks && s.tasks[id].Persisting()
    case Forwards(id) => id in s.tasks && s.tasks[id].Decided?
  }

  function Begin(s: State, id: nat, task: Task): State {
    s.(tasks := s.tasks[id := task], begun := s.begun + {id})
  }

  function GoOn(s: State, t: Tracker, id: nat, task: Task): State {
    s.(t := t, tasks := s.tasks[id := task])
  }

  function End(s: State, id: nat): State {
    s.(tasks := s.tasks - {id})
  }

  function MarkEncrypted(t: Tracker, room: string): Tracker {
    t.(unencrypted := t.unencrypted - {room})
  }

  function Next(s: State, step: Step): State
    requires Enabled(s, step)
  {
    match step
    case Scans(id, room, events) => Begin(s, id, Scanning(room, events))
    case ScansOn(id) => NextScan(s, id)
    case Sends(id, room) => Begin(s, id, if room in s.t.unencrypted then Decided(room, false) else Checking(room))
    case Reads(id, storeOk) =>
      var room := s.tasks[id].room;
      if !storeOk then End(s, id)
      else GoOn(s, s.t, id, if room in s.t.settings then Decided(room, true) else Asking(room))
    case Hears(id, answer) => NextAnswer(s, id, answer)
    case Persists(id, accepted) =>
      var task := s.tasks[id];
      GoOn(s, Persist(s.t, task.room, task.settings, accepted), id,
           if task.ScanPersisting? then Scanning(task.room, task.todo) else Decided(task.room, true))
    case Forwards(id) => End(s, id)
  }

  function NextScan(s: State, id: nat): State
    requires Enabled(s, ScansOn(id))
  {
    var room, todo := s.tasks[id].room, s.tasks[id].todo;
    if todo == [] then End(s, id)
    else
      match NewsOf(todo[0])
      case Encrypts(settings) =>
        // The crypto store is awaited between marking the room and persisting its settings.
        GoOn(s, MarkEncrypted(s.t, room), id, ScanPersisting(room, settings, todo[1..]))
      case news => GoOn(s, Heed(s.t, room, news, _ => false), id, Scanning(room, todo[1..]))
  }

  function NextAnswer(s: State, id: nat, answer: Answer): State
    requires Enabled(s, Hears(id, answer))
  {
    var room := s.tasks[id].room;
    match answer
    case NotFound => GoOn(s, s.t.(unencrypted := s.t.unencrypted + {room}), id, Decided(room, false))
    case Failed => End(s, id)
    case Content(content) =>
      match SettingsFromContent(content)
      case None => End(s, id)
      case Some(settings) => GoOn(s, MarkEncrypted(s.t, room), id, SendPersisting(room, settings))
  }

  predicate Possible(s: State, steps: seq<Step>)
    decreases |steps|
  {
    steps == [] || (Enabled(s, steps[0]) && Possible(Next(s, steps[0]), steps[1..]))
  }

  function Run(s: State, steps: seq<Step>): State
    requires Possible(s, steps)
    decreases |steps|
  {
    if steps == [] then s else Run(Next(s, steps[0]), steps[1..])
  }

  lemma RunFirst(s: State, step: Step, steps: seq<Step>)
    requires Enabled(s, step) && Possible(Next(s, step), steps)
    ensures Possible(s, [step] + steps)
    ensures Run(s, [step] + steps) == Run(Next(s, step), steps)
    ensures NoLateDenial(s, [step] + steps)
            <==> !IsLateDenial(s, step) && NoLateDenial(Next(s, step), steps)
  {
    assert ([step] + steps)[1..] == steps;
  }

  // ----- No room in both

  /** No room is in both the negative cache and the settings, nor will be once a persist
      in flight completes. */
  ghost predicate Safe(s: State) {
    && s.t.Disjoint()
    && forall id, accepted :: Enabled(s, Persists(id, accepted)) ==> Next(s, Persists(id, accepted)).t.Disjoint()
  }

  ghost predicate SafeThroughout(s: State, steps: seq<Step>)
    requires Possible(s, steps)
    decreases |steps|
  {
    && Safe(s)
    && (steps == [] || SafeThroughout(Next(s, steps[0]), steps[1..]))
  }

  predicate PersistInFlight(s: State, room: string) {
    exists id :: id in s.tasks && s.tasks[id].Persisting() && s.tasks[id].room == room
  }

  /** A "not found" for a room that has settings, or is about to. */
  predicate IsLateDenial(s: State, step: Step)
    requires Enabled(s, step)
  {
    && step.Hears? && step.answer.NotFound?
    && (s.tasks[step.id].room in s.t.settings || PersistInFlight(s, s.tasks[step.id].room))
  }

  predicate NoLateDenial(s: State, steps: seq<Step>)
    requires Possible(s, steps)
    decreases |steps|
  {
    steps == []
    || (&& !IsLateDenial(s, steps[0])
        && NoLateDenial(Next(s, steps[0]), steps[1..]))
  }

  ghost predicate Inv(s: State) {
    && s.t.Disjoint()
    && forall id :: id in s.tasks && s.tasks[id].Persisting() ==> s.tasks[id].room !in s.t.unencrypted
  }

  lemma SafeIsInv(s: State)
    ensures Safe(s) <==> Inv(s)
  {
    if Safe(s) {
      forall id | id in s.tasks && s.tasks[id].Persisting()
        ensures s.tasks[id].room !in s.t.unencrypted
      {
        assert Enabled(s, Persists(id, true));
        assert s.tasks[id].room in Next(s, Persists(id, true)).t.settings;
      }
    }
  }

  lemma HearKeepsInv(s: State, id: nat, answer: Answer)
    requires Inv(s) && Enabled(s, Hears(id, answer))
    ensures Inv(Next(s, Hears(id, answer))) <==> !IsLateDenial(s, Hears(id, answer))
  {
    var s' := Next(s, Hears(id, answer));
    var room := s.tasks[id].room;
    if answer.NotFound? {
      assert room in s'.t.unencrypted;
      if PersistInFlight(s, room) {
        var other :| other in s.tasks && s.tasks[other].Persisting() && s.tasks[other].room == room;
        assert s'.tasks[other] == s.tasks[other];
      }
    }
  }

  lemma StepKeepsInv(s: State, step: Step)
    requires Inv(s) && Enabled(s, step)
    ensures Inv(Next(s, step)) <==> !IsLateDenial(s, step)
  {
    match step
    case Hears(id, answer) => HearKeepsInv(s, id, answer);
    case _ =>
  }

  /** In every interleaving: no room is ever in both the negative cache and the settings,
      nor about to be, if and only if no "not found" is heard for a room that has settings
      or a persist in flight. */
  lemma {:induction false} DisjointExactlyWhen(s: State, steps: seq<Step>)
    requires Safe(s) && Possible(s, steps)
    ensures SafeThroughout(s, steps) <==> NoLateDenial(s, steps)
    decreases |steps|
  {
    if steps == [] {
    } else {
      var s1 := Next(s, steps[0]);
      SafeIsInv(s);
      StepKeepsInv(s, steps[0]);
      SafeIsInv(s1);
      if Safe(s1) {
        DisjointExactlyWhen(s1, steps[1..]);
      } else if steps[1..] == [] {
        assert !SafeThroughout(s1, steps[1..]);
      }
    }
  }

  // ----- One at a time

  /** Nothing is under way but sends whose room's state is decided. */
  predicate Quiet(s: State) {
    forall id :: id in s.tasks ==> s.tasks[id].Decided?
  }

  /** Scans and lookups run one at a time if each begins when no other is under way. */
  predicate Serial(s: State, steps: seq<Step>)
    requires Possible(s, steps)
    decreases |steps|
  {
    steps == []
    || (&& (steps[0].Scans? || steps[0].Sends? ==> Quiet(s))
        && Serial(Next(s, steps[0]), steps[1..]))
  }

  ghost predicate Alone(s: State) {
    && (forall i, j :: i in s.tasks && j in s.tasks && !s.tasks[i].Decided? && !s.tasks[j].Decided? ==> i == j)
    && (forall i :: i in s.tasks && s.tasks[i].Asking? ==> s.tasks[i].room !in s.t.settings)
  }

  lemma StepKeepsAlone(s: State, step: Step)
    requires Alone(s) && Enabled(s, step) && (step.Scans? || step.Sends? ==> Quiet(s))
    ensures Alone(Next(s, step)) && !IsLateDenial(s, step)
  {
  }

  /** Where scans and lookups run one at a time, no denial is late. */
  lemma {:induction false} SerialRunsAreDisjoint(s: State, steps: seq<Step>)
    requires Safe(s) && Alone(s) && Possible(s, steps) && Serial(s, steps)
    ensures NoLateDenial(s, steps) && SafeThroughout(s, steps)
    decreases |steps|
  {
    if steps == [] {
    } else {
      StepKeepsAlone(s, steps[0]);
      SafeIsInv(s);
      StepKeepsInv(s, steps[0]);
      SafeIsInv(Next(s, steps[0]));
      SerialRunsAreDisjoint(Next(s, steps[0]), steps[1..]);
    }
  }

  // ----- Once settings are persisted

  /** A "not found" for this room. */
  predicate IsDenialOf(s: State, step: Step, room: string)
    requires Enabled(s, step)
  {
    step.Hears? && step.answer.NotFound? && s.tasks[step.id].room == room
  }

  predicate NoDenialOf(s: State, steps: seq<Step>, room: string)
    requires Possible(s, steps)
    decreases |steps|
  {
    steps == []
    || (!IsDenialOf(s, steps[0], room) && NoDenialOf(Next(s, steps[0]), steps[1..], room))
  }

  /** A room with settings and out of the negative cache, and of its sends begun since
      none on its way to plain. */
  ghost predicate Sticks(s: State, room: string, settings: Settings, before: set<nat>) {
    && room in s.t.settings && s.t.settings[room] == settings && room !in s.t.unencrypted
    && forall id :: id in s.tasks && id !in before && s.tasks[id].room == room ==>
         !s.tasks[id].Asking? && s.tasks[id] != Decided(room, false)
  }

  lemma StepKeepsSticks(s: State, step: Step, room: string, settings: Settings, before: set<nat>)
    requires Enabled(s, step) && !IsDenialOf(s, step, room) && Sticks(s, room, settings, before)
    ensures Sticks(Next(s, step), room, settings, before)
  {
  }

  lemma {:induction false} RunKeepsSticks(s: State, steps: seq<Step>, room: string, settings: Settings,
                                          before: set<nat>)
    requires Possible(s, steps) && NoDenialOf(s, steps, room) && Sticks(s, room, settings, before)
    ensures Sticks(Run(s, steps), room, settings, before)
    decreases |steps|
  {
    if steps == [] {
    } else {
      StepKeepsSticks(s, steps[0], room, settings, before);
      RunKeepsSticks(Next(s, steps[0]), steps[1..], room, settings, before);
    }
  }

  /** A send that begins after this state and is forwarded unencrypted. */
  predicate PlainLater(s: State, steps: seq<Step>, room: string, id: nat)
    requires Possible(s, steps)
  {
    id !in s.begun && id in Run(s, steps).tasks && Run(s, steps).tasks[id] == Decided(room, false)
  }

  /** In no run without a denial of the room does a send begun later come to be forwarded
      unencrypted, whatever happens to other rooms and to earlier sends. */
  ghost predicate SendsStayEncrypted(s: State, room: string) {
    forall steps, id :: Possible(s, steps) && NoDenialOf(s, steps, room) ==> !PlainLater(s, steps, room, id)
  }

  /** With settings persisted, every send to the room that begins later goes out encrypted
      or not at all if and only if the room is not in the negative cache, however the sends
      and scans of all rooms interleave, as long as no lookup hears the room denied. */
  lemma EncryptionIsStickyExactlyIf(s: State, room: string)
    requires room in s.t.settings && s.tasks.Keys <= s.begun
    ensures SendsStayEncrypted(s, room) <==> room !in s.t.unencrypted
  {
    if room !in s.t.unencrypted {
      forall steps, id | Possible(s, steps) && NoDenialOf(s, steps, room)
        ensures !PlainLater(s, steps, room, id)
      {
        RunKeepsSticks(s, steps, room, s.t.settings[room], s.begun);
      }
    } else {
      var id := FreshId(s.begun);
      var step := Sends(id, room);
      OneTwo(s, step);
      assert NoDenialOf(Next(s, step), [], room);
      assert [step][1..] == [];
      assert NoDenialOf(s, [step], room) && PlainLater(s, [step], room, id);
    }
  }

  lemma BegunStays(s: State, step: Step)
    requires s.tasks.Keys <= s.begun && Enabled(s, step)
    ensures Next(s, step).tasks.Keys <= Next(s, step).begun
    ensures forall room :: room in s.t.settings ==> room in Next(s, step).t.settings
  {
  }

  ghost predicate StaysEncryptedThroughout(s: State, steps: seq<Step>, room: string)
    requires Possible(s, steps)
    decreases |steps|
  {
    && SendsStayEncrypted(s, room)
    && (steps == [] || StaysEncryptedThroughout(Next(s, steps[0]), steps[1..], room))
  }

  /** Encryption stays on for the sends that begin at any point of a run if and only if no
      lookup of the room hears "not found" in it. */
  lemma {:induction false} StaysEncryptedExactlyWhen(s: State, steps: seq<Step>, room: string)
    requires room in s.t.settings && room !in s.t.unencrypted && s.tasks.Keys <= s.begun && Possible(s, steps)
    ensures StaysEncryptedThroughout(s, steps, room) <==> NoDenialOf(s, steps, room)
    decreases |steps|
  {
    EncryptionIsStickyExactlyIf(s, room);
    if steps == [] {
    } else {
      var s1 := Next(s, steps[0]);
      BegunStays(s, steps[0]);
      EncryptionIsStickyExactlyIf(s1, room);
      DenialOrNot(s, steps[0], room);
      if room !in s1.t.unencrypted {
        StaysEncryptedExactlyWhen(s1, steps[1..], room);
      } else {
        assert !StaysEncryptedThroughout(s1, steps[1..], room);
      }
    }
  }

  lemma DenialOrNot(s: State, step: Step, room: string)
    requires Enabled(s, step) && room !in s.t.unencrypted
    ensures room in Next(s, step).t.unencrypted <==> IsDenialOf(s, step, room)
  {
  }

  /** What such a send puts on the wire. */
  lemma EncryptionIsSticky(
      s: State, steps: seq<Step>, id: nat, room: string, kind: string, txn: string,
      body: Option<Json>, forRoom: Json -> Json, forPlain: Json -> Option<Json>, encrypts: bool)
    requires room in s.t.settings && room !in s.t.unencrypted && s.tasks.Keys <= s.begun && id !in s.begun
    requires Possible(s, steps) && NoDenialOf(s, steps, room)
    requires var s' := Run(s, steps); Enabled(s', Forwards(id)) && s'.tasks[id].room == room
    ensures var s' := Run(s, steps);
            var wire := ForwardWire(s'.tasks[id].encrypted, room, kind, txn, body, forRoom, forPlain, encrypts);
            && room in s'.t.settings && s'.t.settings[room] == s.t.settings[room]
            && (wire == Nothing
                || (body.Some? && wire == Sent(ENCRYPTED, txn, Megolm(room, kind, forRoom(body.value)))))
  {
    EncryptionIsStickyExactlyIf(s, room);
    RunKeepsSticks(s, steps, room, s.t.settings[room], s.begun);
    assert !PlainLater(s, steps, room, id);
  }

  // ----- The interleavings that break it

  /** A fresh proxy with this tracker. */
  function Idle(t: Tracker): State {
    State(t, map[], {})
  }

  /** A send to the room has asked the homeserver and not heard yet; a scan has one
      encryption event of the room before it. */
  function AskedAndScanning(t: Tracker, room: string, event: Json): State {
    State(t, map[1 := Asking(room), 2 := Scanning(room, [event])], {1, 2})
  }

  const ASKING: nat := 1
  const SCANNING: nat := 2
  const LATER: nat := 3

  function Prologue(room: string, event: Json): seq<Step> {
    [Sends(ASKING, room), Reads(ASKING, true), Scans(SCANNING, room, [event])]
  }

  lemma PrologueRuns(t: Tracker, room: string, event: Json, rest: seq<Step>)
    requires Known(t, room).None?
    requires Possible(AskedAndScanning(t, room, event), rest)
    ensures Possible(Idle(t), Prologue(room, event) + rest)
    ensures Run(Idle(t), Prologue(room, event) + rest)
            == Run(AskedAndScanning(t, room, event), rest)
    ensures NoLateDenial(Idle(t), Prologue(room, event) + rest)
            <==> NoLateDenial(AskedAndScanning(t, room, event), rest)
  {
    var s1 := Next(Idle(t), Sends(ASKING, room));
    var s2 := Next(s1, Reads(ASKING, true));
    assert Next(s2, Scans(SCANNING, room, [event])) == AskedAndScanning(t, room, event);
    RunFirst(s2, Scans(SCANNING, room, [event]), rest);
    RunFirst(s1, Reads(ASKING, true), [Scans(SCANNING, room, [event])] + rest);
    RunFirst(Idle(t), Sends(ASKING, room), [Reads(ASKING, true)] + ([Scans(SCANNING, room, [event])] + rest));
    assert Prologue(room, event) + rest
           == [Sends(ASKING, room)] + ([Reads(ASKING, true)] + ([Scans(SCANNING, room, [event])] + rest));
  }

  lemma FourRun(s: State, a: Step, b: Step, c: Step, d: Step)
    requires Enabled(s, a)
    requires var s1 := Next(s, a);
             Enabled(s1, b)
             && var s2 := Next(s1, b);
                Enabled(s2, c)
                && var s3 := Next(s2, c);
                   Enabled(s3, d)
    ensures Possible(s, [a, b, c, d])
    ensures Run(s, [a, b, c, d])
            == Next(Next(Next(Next(s, a), b), c), d)
    ensures NoLateDenial(s, [a, b, c, d])
            <==> var s1 := Next(s, a);
                 var s2 := Next(s1, b);
                 && !IsLateDenial(s, a) && !IsLateDenial(s1, b)
                 && !IsLateDenial(s2, c) && !IsLateDenial(Next(s2, c), d)
  {
    var s1 := Next(s, a);
    var s2 := Next(s1, b);
    var s3 := Next(s2, c);
    assert Possible(Next(s3, d), []);
    RunFirst(s3, d, []);
    assert [d] + [] == [d];
    RunFirst(s2, c, [d]);
    assert [c] + [d] == [c, d];
    RunFirst(s1, b, [c, d]);
    assert [b] + [c, d] == [b, c, d];
    RunFirst(s, a, [b, c, d]);
    assert [a] + [b, c, d] == [a, b, c, d];
  }

  /** A lookup hears "not found" after a scan has persisted settings: the room is in both,
      and a send begun after that goes out plain. */
  lemma LateDenialSendsPlain(t: Tracker, room: string, event: Json)
    requires Known(t, room).None? && SettingsOf(event).Some?
    ensures var steps := Prologue(room, event)
                         + [ScansOn(SCANNING), Persists(SCANNING, true), Hears(ASKING, NotFound), Sends(LATER, room)];
            && Possible(Idle(t), steps)
            && (var s := Run(Idle(t), steps);
                && room in s.t.unencrypted && room in s.t.settings
                && LATER in s.tasks && s.tasks[LATER] == Decided(room, false))
  {
    NewsIsSettings(event);
    var s := AskedAndScanning(t, room, event);
    var a, b, c, d := ScansOn(SCANNING), Persists(SCANNING, true), Hears(ASKING, NotFound), Sends(LATER, room);
    FourRun(s, a, b, c, d);
    PrologueRuns(t, room, event, [a, b, c, d]);
  }

  /** The same where the denial comes between the scan's mark and its persist, when no
      settings are there yet. */
  lemma DenialBeforePersistSendsPlain(t: Tracker, room: string, event: Json)
    requires Known(t, room).None? && SettingsOf(event).Some?
    ensures var steps := Prologue(room, event)
                         + [ScansOn(SCANNING), Hears(ASKING, NotFound), Persists(SCANNING, true), Sends(LATER, room)];
            && Possible(Idle(t), steps)
            && (var s := Run(Idle(t), steps);
                && room in s.t.unencrypted && room in s.t.settings
                && LATER in s.tasks && s.tasks[LATER] == Decided(room, false))
  {
    NewsIsSettings(event);
    var s := AskedAndScanning(t, room, event);
    var a, b, c, d := ScansOn(SCANNING), Hears(ASKING, NotFound), Persists(SCANNING, true), Sends(LATER, room);
    FourRun(s, a, b, c, d);
    PrologueRuns(t, room, event, [a, b, c, d]);
  }

  /** A send decided before a scan persists settings is forwarded plain after it, though
      no denial was late. */
  lemma DecidedBeforeGoesPlain(t: Tracker, room: string, event: Json)
    requires Known(t, room).None? && SettingsOf(event).Some?
    ensures var steps := Prologue(room, event)
                         + [Hears(ASKING, NotFound), ScansOn(SCANNING), Persists(SCANNING, true), ScansOn(SCANNING)];
            && Possible(Idle(t), steps) && NoLateDenial(Idle(t), steps)
            && (var s := Run(Idle(t), steps);
                && room !in s.t.unencrypted && room in s.t.settings
                && ASKING in s.tasks && s.tasks[ASKING] == Decided(room, false))
  {
    NewsIsSettings(event);
    var s := AskedAndScanning(t, room, event);
    var a, b, c, d := Hears(ASKING, NotFound), ScansOn(SCANNING), Persists(SCANNING, true), ScansOn(SCANNING);
    FourRun(s, a, b, c, d);
    PrologueRuns(t, room, event, [a, b, c, d]);
  }

  // ----- Uninterrupted, a task does what its method does

  lemma {:induction false} ScannedFirst(t: Tracker, room: string, events: seq<Json>, accepts: Settings -> bool)
    requires events != []
    ensures Scanned(t, room, events, accepts)
            == Scanned(ScanOne(t, room, events[0], accepts), room, events[1..], accepts)
    decreases |events|
  {
    if |events| == 1 {
      assert events[..0] == [] == events[1..];
    } else {
      var before := events[..|events| - 1];
      ScannedFirst(t, room, before, accepts);
      assert before[1..] == events[1..][..|events| - 2];
    }
  }

  /** The rest of a scan, undisturbed; `accepts` says which settings the store takes. */
  function ScanSteps(id: nat, events: seq<Json>, accepts: Settings -> bool): seq<Step> {
    if events == [] then [ScansOn(id)]
    else
      match NewsOf(events[0])
      case Encrypts(settings) =>
        [ScansOn(id)] + ([Persists(id, accepts(settings))] + ScanSteps(id, events[1..], accepts))
      case _ => [ScansOn(id)] + ScanSteps(id, events[1..], accepts)
  }

  lemma {:induction false} ScanAlone(s: State, id: nat, room: string, events: seq<Json>, accepts: Settings -> bool)
    requires id in s.tasks && s.tasks[id] == Scanning(room, events)
    ensures Possible(s, ScanSteps(id, events, accepts))
    ensures Run(s, ScanSteps(id, events, accepts))
            == State(Scanned(s.t, room, events, accepts), s.tasks - {id}, s.begun)
    decreases |events|
  {
    var s1 := Next(s, ScansOn(id));
    if events == [] {
      assert [ScansOn(id)][1..] == [];
      assert Possible(s1, []) && Run(s1, []) == s1;
    } else {
      ScannedFirst(s.t, room, events, accepts);
      var rest := ScanSteps(id, events[1..], accepts);
      match NewsOf(events[0]) {
        case Encrypts(settings) =>
          var persists := Persists(id, accepts(settings));
          var s2 := Next(s1, persists);
          assert s2.t == ScanOne(s.t, room, events[0], accepts);
          ScanAlone(s2, id, room, events[1..], accepts);
          RunFirst(s1, persists, rest);
          RunFirst(s, ScansOn(id), [persists] + rest);
          assert s2.tasks - {id} == s.tasks - {id};
        case _ =>
          assert s1.t == ScanOne(s.t, room, events[0], accepts);
          ScanAlone(s1, id, room, events[1..], accepts);
          RunFirst(s, ScansOn(id), rest);
          assert s1.tasks - {id} == s.tasks - {id};
      }
    }
  }

  /** A send up to its decision, undisturbed. */
  function SendSteps(t: Tracker, id: nat, room: string, storeOk: bool, answer: Answer, accepts: Settings -> bool)
    : seq<Step>
  {
    if room in t.unencrypted then [Sends(id, room)]
    else if !storeOk || room in t.settings then [Sends(id, room), Reads(id, storeOk)]
    else if answer.Content? && SettingsFromContent(answer.content).Some? then
      [Sends(id, room), Reads(id, storeOk), Hears(id, answer),
       Persists(id, accepts(SettingsFromContent(answer.content).value))]
    else [Sends(id, room), Reads(id, storeOk), Hears(id, answer)]
  }

  lemma OneTwo(s: State, a: Step)
    requires Enabled(s, a)
    ensures Possible(s, [a]) && Run(s, [a]) == Next(s, a)
    ensures var s1 := Next(s, a);
            forall b :: Enabled(s1, b) ==>
              Possible(s, [a, b]) && Run(s, [a, b]) == Next(s1, b)
  {
    var s1 := Next(s, a);
    assert Possible(s1, []);
    RunFirst(s, a, []);
    assert [a] + [] == [a];
    forall b | Enabled(s1, b)
      ensures Possible(s, [a, b]) && Run(s, [a, b]) == Next(s1, b)
    {
      assert Possible(Next(s1, b), []);
      RunFirst(s1, b, []);
      assert [b] + [] == [b];
      RunFirst(s, a, [b]);
      assert [a] + [b] == [a, b];
    }
  }

  lemma ThreeRun(s: State, a: Step, b: Step, c: Step)
    requires Enabled(s, a)
    requires var s1 := Next(s, a);
             Enabled(s1, b) && Enabled(Next(s1, b), c)
    ensures Possible(s, [a, b, c])
    ensures Run(s, [a, b, c]) == Next(Next(Next(s, a), b), c)
  {
    OneTwo(Next(s, a), b);
    RunFirst(s, a, [b, c]);
    assert [a] + [b, c] == [a, b, c];
  }

  lemma SendRuns(s: State, id: nat, room: string, storeOk: bool, answer: Answer, accepts: Settings -> bool)
    requires id !in s.begun && id !in s.tasks
    ensures var steps := SendSteps(s.t, id, room, storeOk, answer, accepts);
            && Possible(s, steps)
            && (var s' := Run(s, steps);
                && s'.t == (if Known(s.t, room).Some? || !storeOk then s.t else Learned(s.t, room, answer, accepts).0)
                && (id in s'.tasks ==> s'.tasks[id].Decided?)
                && (id in s'.tasks <==> Decision(s.t, room, storeOk, answer).Some?)
                && (id in s'.tasks ==> s'.tasks[id].encrypted == Decision(s.t, room, storeOk, answer).value))
  {
    var a, b, c := Sends(id, room), Reads(id, storeOk), Hears(id, answer);
    OneTwo(s, a);
    if room !in s.t.unencrypted && storeOk && room !in s.t.settings {
      ThreeRun(s, a, b, c);
      if answer.Content? && SettingsFromContent(answer.content).Some? {
        FourRun(s, a, b, c, Persists(id, accepts(SettingsFromContent(answer.content).value)));
      }
    }
  }

  /** An undisturbed send decides, learns and forwards just what one call does. */
  lemma SendAlone(s: State, id: nat, room: string, kind: string, txn: string, body: Option<Json>, storeOk: bool,
                  answer: Answer, accepts: Settings -> bool, forRoom: Json -> Json,
                  forPlain: Json -> Option<Json>, encrypts: bool)
    requires id !in s.begun && id !in s.tasks
    ensures var steps := SendSteps(s.t, id, room, storeOk, answer, accepts);
            && Possible(s, steps)
            && (var s' := Run(s, steps);
                && s'.t == (if Known(s.t, room).Some? || !storeOk then s.t else Learned(s.t, room, answer, accepts).0)
                && (id in s'.tasks ==> s'.tasks[id].Decided?)
                && SendWire(s.t, room, kind, txn, body, storeOk, answer, forRoom, forPlain, encrypts)
                   == if id !in s'.tasks then Nothing
                      else ForwardWire(s'.tasks[id].encrypted, room, kind, txn, body, forRoom, forPlain, encrypts))
  {
    SendRuns(s, id, room, storeOk, answer, accepts);
  }
}
