/** Asking for missing room keys: once for each megolm session, and one request at a time
    with the pump. */
module KeyRequests {
  import opened Seqs
  import opened Pump

  /** A task waits for the pump lock, sends the requests it was given under the lock, or
      has failed and is about to let the session be asked for again. */
  datatype Stage = Waiting | Asking | Sending(todo: seq<nat>) | Failing

  datatype Task = Task(session: string, stage: Stage)

  /** Who has the pump lock: no one, a task, or a pump with what it has yet to send. */
  datatype Holder = Free | TheTask(id: nat) | ThePump(todo: seq<nat>)

  /** What became of the tasks for a session. */
  datatype Fact = Started(session: string) | Succeeded(session: string) | Failed(session: string)

  datatype State = State(
    requested: set<string>,
    tasks: map<nat, Task>,
    holder: Holder,
    outgoing: Outgoing,
    answered: seq<nat>,
    facts: seq<Fact>)

  datatype Step =
    // An event that cannot be decrypted, of this session, if it names one.
    | Undecryptable(session: Option<string>, id: nat)
    | Locks(id: nat)
    // The machine makes a request, and maybe a cancellation to send before it, or fails.
    | Asks(id: nat, cancels: bool, ok: bool)
    | Sends(id: nat, answer: Answer)
    | Forgets(id: nat)
    | PumpLocks
    | PumpAsks(ok: bool)
    | PumpSends(answer: Answer)
    // Whatever else makes the machine queue requests.
    | Queues(n: nat)

  predicate Enabled(s: State, step: Step) {
    match step
    case Undecryptable(session, id) => id !in s.tasks
    case Locks(id) => id in s.tasks && s.tasks[id].stage.Waiting? && s.holder.Free?
    case Asks(id, _, _) => id in s.tasks && s.tasks[id].stage.Asking?
    case Sends(id, _) => id in s.tasks && s.tasks[id].stage.Sending?
    case Forgets(id) => id in s.tasks && s.tasks[id].stage.Failing?
    case PumpLocks => s.holder.Free?
    case PumpAsks(_) => s.holder == ThePump([])
    case PumpSends(_) => s.holder.ThePump? && s.holder.todo != []
    case Queues(_) => true
  }

  function Stages(s: State, id: nat, stage: Stage): State
    requires id in s.tasks
  {
    s.(tasks := s.tasks[id := s.tasks[id].(stage := stage)])
  }

  /** A request was answered and leaves the queue. */
  function Answered(s: State, request: nat, more: nat): State {
    s.(outgoing := Mark(s.outgoing, request, more), answered := s.answered + [request])
  }

  function Next(s: State, step: Step): State
    requires Enabled(s, step)
  {
    match step
    case Undecryptable(session, id) =>
      if session.None? || session.value in s.requested then s
      else
        s.(requested := s.requested + {session.value},
           tasks := s.tasks[id := Task(session.value, Waiting)],
           facts := s.facts + [Started(session.value)])
    case Locks(id) => Stages(s, id, Asking).(holder := TheTask(id))
    case Asks(id, cancels, ok) =>
      var n := if cancels then 2 else 1;
      if ok then Stages(s, id, Sending(Numbers(s.outgoing.made, n))).(outgoing := Make(s.outgoing, n))
      else Stages(s, id, Failing).(holder := Free)
    case Sends(id, answer) =>
      var todo := s.tasks[id].stage.todo;
      if todo == [] || !answer.Accepted? then Stages(s, id, Failing).(holder := Free)
      else if |todo| > 1 then Stages(Answered(s, todo[0], answer.more), id, Sending(todo[1..]))
      else
        Answered(s, todo[0], answer.more).(
          holder := Free,
          tasks := s.tasks - {id},
          facts := s.facts + [Succeeded(s.tasks[id].session)])
    case Forgets(id) =>
      s.(requested := s.requested - {s.tasks[id].session},
         tasks := s.tasks - {id},
         facts := s.facts + [Failed(s.tasks[id].session)])
    case PumpLocks => s.(holder := ThePump([]))
    case PumpAsks(ok) =>
      if ok && s.outgoing.queue != [] then s.(holder := ThePump(s.outgoing.queue)) else s.(holder := Free)
    case PumpSends(answer) =>
      if answer.Accepted? then
        Answered(s, s.holder.todo[0], answer.more).(holder := ThePump(s.holder.todo[1..]))
      else s.(holder := Free)
    case Queues(n) => s.(outgoing := Make(s.outgoing, n))
  }

  predicate Possible(s: State, steps: seq<Step>)
    decreases |steps|
  {
    steps == [] || (Enabled(s, steps[0]) && Possible(Next(s, steps[0]), steps[1..]))
  }

  function Run(s: State, steps: seq<Step>): State
    requires Possible(s, steps)
    decreases |steps|
  {
    if steps == [] then s else Run(Next(s, steps[0]), steps[1..])
  }

  const START := State({}, map[], Free, Outgoing([], 0), [], [])

  // ----- One task for each session

  /** Where a session's story stands. */
  datatype Phase = Idle | InFlight | Done | Broken

  function PhaseOf(facts: seq<Fact>, session: string): Phase {
    if facts == [] then Idle
    else
      var before, fact := PhaseOf(facts[..|facts| - 1], session), facts[|facts| - 1];
      if fact.session != session then before
      else match fact
           case Started(_) => if before.Idle? then InFlight else Broken
           case Succeeded(_) => if before.InFlight? then Done else Broken
           case Failed(_) => if before.InFlight? then Idle else Broken
  }

  predicate Running(s: State, session: string) {
    exists id :: id in s.tasks && s.tasks[id].session == session
  }

  /** A session's story is told by its task, or by whether it was asked for. */
  predicate PhaseOk(s: State, x: string) {
    PhaseOf(s.facts, x) == if Running(s, x) then InFlight else if x in s.requested then Done else Idle
  }

  ghost predicate TasksInv(s: State) {
    && (forall i, j :: i in s.tasks && j in s.tasks && s.tasks[i].session == s.tasks[j].session ==> i == j)
    && (forall i :: i in s.tasks ==> s.tasks[i].session in s.requested)
    && (forall x :: PhaseOk(s, x))
  }

  lemma OneMoreFact(facts: seq<Fact>, fact: Fact, session: string)
    ensures PhaseOf(facts + [fact], session)
            == var before := PhaseOf(facts, session);
               if fact.session != session then before
               else match fact
                    case Started(_) => if before.Idle? then InFlight else Broken
                    case Succeeded(_) => if before.InFlight? then Done else Broken
                    case Failed(_) => if before.InFlight? then Idle else Broken
  {
    assert (facts + [fact])[..|facts|] == facts;
  }

  lemma StartKeepsPhase(s: State, session: string, id: nat, x: string)
    requires PhaseOk(s, x) && PhaseOk(s, session) && id !in s.tasks && session !in s.requested
    requires forall i :: i in s.tasks ==> s.tasks[i].session in s.requested
    ensures PhaseOk(Next(s, Undecryptable(Some(session), id)), x)
  {
    var s' := Next(s, Undecryptable(Some(session), id));
    OneMoreFact(s.facts, Started(session), x);
    assert id in s'.tasks && s'.tasks[id].session == session;
    if Running(s, x) {
      var i :| i in s.tasks && s.tasks[i].session == x;
      assert s'.tasks[i].session == x;
    } else if x != session {
      assert !Running(s', x);
    }
  }

  lemma StartKeepsTasks(s: State, session: Option<string>, id: nat)
    requires TasksInv(s) && Enabled(s, Undecryptable(session, id))
    ensures TasksInv(Next(s, Undecryptable(session, id)))
  {
    var s' := Next(s, Undecryptable(session, id));
    if s' != s {
      assert PhaseOk(s, session.value);
      forall x
        ensures PhaseOk(s', x)
      {
        assert PhaseOk(s, x);
        StartKeepsPhase(s, session.value, id, x);
      }
    }
  }

  /** A task that ends, well or not. */
  lemma EndKeepsTasks(s: State, s': State, id: nat, ok: bool)
    requires TasksInv(s) && id in s.tasks && s'.tasks == s.tasks - {id}
    requires var x := s.tasks[id].session;
             && s'.requested == (if ok then s.requested else s.requested - {x})
             && s'.facts == s.facts + [if ok then Succeeded(x) else Failed(x)]
    ensures TasksInv(s')
  {
    var session := s.tasks[id].session;
    forall x
      ensures PhaseOk(s', x)
    {
      OneMoreFact(s.facts, s'.facts[|s.facts|], x);
      assert Running(s, session);
      if Running(s, x) && x != session {
        var i :| i in s.tasks && s.tasks[i].session == x;
        assert s'.tasks[i].session == x;
      }
      assert PhaseOk(s, x);
    }
  }

  lemma StageKeepsTasks(s: State, s': State, id: nat)
    requires TasksInv(s) && id in s.tasks && s'.facts == s.facts && s'.requested == s.requested
    requires id in s'.tasks && s'.tasks == s.tasks[id := s.tasks[id].(stage := s'.tasks[id].stage)]
    ensures TasksInv(s')
  {
    forall x
      ensures PhaseOk(s', x)
    {
      assert PhaseOk(s, x);
      if Running(s, x) {
        var i :| i in s.tasks && s.tasks[i].session == x;
        assert s'.tasks[i].session == x;
      }
    }
  }

  lemma StepKeepsTasks(s: State, step: Step)
    requires TasksInv(s) && Enabled(s, step)
    ensures TasksInv(Next(s, step))
  {
    var s' := Next(s, step);
    match step
    case Undecryptable(session, id) => StartKeepsTasks(s, session, id);
    case Locks(id) => StageKeepsTasks(s, s', id);
    case Asks(id, _, _) => StageKeepsTasks(s, s', id);
    case Sends(id, answer) =>
      if id in s'.tasks {
        StageKeepsTasks(s, s', id);
      } else {
        EndKeepsTasks(s, s', id, true);
      }
    case Forgets(id) => EndKeepsTasks(s, s', id, false);
    case _ =>
      forall x
        ensures PhaseOk(s', x)
      {
        assert PhaseOk(s, x) && Running(s', x) == Running(s, x);
      }
  }

  /** Two facts of one session: nothing comes after a success, a failure between two
      starts, a start between two failures. */
  ghost predicate Follows(facts: seq<Fact>, i: nat, j: nat)
    requires i < j < |facts|
  {
    && !facts[i].Succeeded?
    && (facts[i].Started? && facts[j].Started? ==> exists k :: i < k < j && facts[k] == Failed(facts[i].session))
    && (facts[i].Failed? && facts[j].Failed? ==> exists k :: i < k < j && facts[k] == Started(facts[i].session))
  }

  ghost predicate OneAtATime(facts: seq<Fact>, x: string) {
    forall i, j :: 0 <= i < j < |facts| && facts[i].session == x == facts[j].session ==> Follows(facts, i, j)
  }

  /** The newest fact about a session, from i on. */
  lemma {:induction false} NewestFact(facts: seq<Fact>, x: string, i: nat) returns (l: nat)
    requires i < |facts| && facts[i].session == x
    ensures i <= l < |facts| && facts[l].session == x
    ensures forall j :: l < j < |facts| ==> facts[j].session != x
    decreases |facts|
  {
    if facts[|facts| - 1].session == x {
      l := |facts| - 1;
    } else {
      l := NewestFact(facts[..|facts| - 1], x, i);
    }
  }

  /** The newest fact tells where the story stands. */
  lemma {:induction false} NewestTells(facts: seq<Fact>, x: string, l: nat)
    requires l < |facts| && facts[l].session == x && PhaseOf(facts, x) != Broken
    requires forall j :: l < j < |facts| ==> facts[j].session != x
    ensures match facts[l]
            case Started(_) => PhaseOf(facts, x) == InFlight
            case Succeeded(_) => PhaseOf(facts, x) == Done
            case Failed(_) => PhaseOf(facts, x) == Idle
    decreases |facts|
  {
    if l < |facts| - 1 {
      NewestTells(facts[..|facts| - 1], x, l);
    }
  }

  lemma {:induction false} UnbrokenIsOneAtATime(facts: seq<Fact>, x: string)
    requires PhaseOf(facts, x) != Broken
    ensures OneAtATime(facts, x)
    decreases |facts|
  {
    if facts == [] {
    } else {
      var n := |facts| - 1;
      UnbrokenIsOneAtATime(facts[..n], x);
      forall i, j | 0 <= i < j < |facts| && facts[i].session == x == facts[j].session
        ensures Follows(facts, i, j)
      {
        if j < n {
          FollowsBefore(facts, x, i, j);
        } else {
          FollowsLast(facts, x, i);
        }
      }
    }
  }

  lemma FollowsBefore(facts: seq<Fact>, x: string, i: nat, j: nat)
    requires i < j < |facts| - 1 && facts[i].session == x == facts[j].session
    requires OneAtATime(facts[..|facts| - 1], x)
    ensures Follows(facts, i, j)
  {
    var before := facts[..|facts| - 1];
    assert Follows(before, i, j);
    if facts[i].Started? && facts[j].Started? {
      var k :| i < k < j && before[k] == Failed(x);
      assert facts[k] == Failed(x);
    }
    if facts[i].Failed? && facts[j].Failed? {
      var k :| i < k < j && before[k] == Started(x);
      assert facts[k] == Started(x);
    }
  }

  lemma FollowsLast(facts: seq<Fact>, x: string, i: nat)
    requires i < |facts| - 1 && facts[i].session == x == facts[|facts| - 1].session
    requires PhaseOf(facts, x) != Broken && OneAtATime(facts[..|facts| - 1], x)
    ensures Follows(facts, i, |facts| - 1)
  {
    var before := facts[..|facts| - 1];
    var l := NewestFact(before, x, i);
    NewestTells(before, x, l);
    assert before[l] == facts[l] && (i < l ==> Follows(before, i, l));
  }

  // ----- One request at a time

  /** Every request made is still queued or was answered, and not both. */
  ghost predicate Ledger(o: Outgoing, answered: seq<nat>) {
    && o.Valid() && NoDup(answered)
    && Elems(o.queue) !! Elems(answered)
    && forall n: nat :: n < o.made <==> n in Elems(o.queue) || n in Elems(answered)
  }

  /** What the holder of the lock has yet to send. */
  function Todo(s: State): seq<nat> {
    match s.holder
    case ThePump(todo) => todo
    case TheTask(id) => if id in s.tasks && s.tasks[id].stage.Sending? then s.tasks[id].stage.todo else []
    case Free => []
  }

  predicate Busy(task: Task) {
    task.stage.Asking? || task.stage.Sending?
  }

  /** Only the holder of the lock sends, and what it sends is queued. */
  ghost predicate LockInv(s: State) {
    && (forall i :: i in s.tasks && Busy(s.tasks[i]) ==> s.holder == TheTask(i))
    && (s.holder.TheTask? ==> s.holder.id in s.tasks && Busy(s.tasks[s.holder.id]))
    && (forall i :: i in s.tasks && s.tasks[i].stage.Sending? ==> s.tasks[i].stage.todo != [])
    && NoDup(Todo(s)) && Elems(Todo(s)) <= Elems(s.outgoing.queue)
  }

  lemma MakeElems(o: Outgoing, n: nat)
    requires o.Valid()
    ensures Make(o, n).Valid() && NoDup(Numbers(o.made, n))
    ensures Elems(Make(o, n).queue) == Elems(o.queue) + Elems(Numbers(o.made, n))
    ensures forall x :: x in Elems(Numbers(o.made, n)) <==> o.made <= x < o.made + n
  {
    MakeKeepsValid(o, n);
    ElemsConcat(o.queue, Numbers(o.made, n));
    forall x | o.made <= x < o.made + n
      ensures x in Numbers(o.made, n)
    {
      assert Numbers(o.made, n)[x - o.made] == x;
    }
  }

  lemma MakeKeepsLedger(o: Outgoing, answered: seq<nat>, n: nat)
    requires Ledger(o, answered)
    ensures Ledger(Make(o, n), answered)
  {
    MakeElems(o, n);
    assert forall x: nat :: x in Elems(answered) ==> x < o.made;
  }

  lemma MarkKeepsLedger(o: Outgoing, answered: seq<nat>, id: nat, n: nat)
    requires Ledger(o, answered) && id in Elems(o.queue)
    ensures Ledger(Mark(o, id, n), answered + [id])
    ensures Elems(o.queue) - {id} <= Elems(Mark(o, id, n).queue)
  {
    var o1 := o.(queue := Without(o.queue, {id}));
    WithoutElems(o.queue, {id});
    WithoutNoDup(o.queue, {id});
    assert forall x :: x in o1.queue ==> x in Elems(o1.queue);
    NoDupAppend(answered, id);
    ElemsConcat(answered, [id]);
    assert Ledger(o1, answered + [id]);
    MakeKeepsLedger(o1, answered + [id], n);
    ElemsConcat(o1.queue, Numbers(o.made, n));
  }

  ghost predicate QueueInv(s: State) {
    Ledger(s.outgoing, s.answered) && LockInv(s)
  }

  /** The rest of what the holder has to send, once the first of it is answered. */
  lemma RestIsQueued(s: State, more: nat)
    requires QueueInv(s) && Todo(s) != []
    ensures var s' := Answered(s, Todo(s)[0], more);
            && Ledger(s'.outgoing, s'.answered)
            && NoDup(Todo(s)[1..]) && Elems(Todo(s)[1..]) <= Elems(s'.outgoing.queue)
  {
    var todo := Todo(s);
    assert todo == [todo[0]] + todo[1..];
    NoDupParts([todo[0]], todo[1..]);
    ElemsConcat([todo[0]], todo[1..]);
    assert todo[0] in Elems([todo[0]]);
    MarkKeepsLedger(s.outgoing, s.answered, todo[0], more);
  }

  lemma SendKeepsQueue(s: State, id: nat, answer: Answer)
    requires QueueInv(s) && Enabled(s, Sends(id, answer))
    ensures QueueInv(Next(s, Sends(id, answer)))
  {
    assert s.holder == TheTask(id);
    if answer.Accepted? {
      RestIsQueued(s, answer.more);
    }
  }

  lemma PumpSendKeepsQueue(s: State, answer: Answer)
    requires QueueInv(s) && Enabled(s, PumpSends(answer))
    ensures QueueInv(Next(s, PumpSends(answer)))
  {
    if answer.Accepted? {
      RestIsQueued(s, answer.more);
    }
  }

  lemma StepKeepsQueue(s: State, step: Step)
    requires QueueInv(s) && Enabled(s, step)
    ensures QueueInv(Next(s, step))
  {
    match step
    case Asks(id, cancels, _) =>
      MakeElems(s.outgoing, if cancels then 2 else 1);
      MakeKeepsLedger(s.outgoing, s.answered, if cancels then 2 else 1);
    case Queues(n) =>
      MakeElems(s.outgoing, n);
      MakeKeepsLedger(s.outgoing, s.answered, n);
    case Sends(id, answer) => SendKeepsQueue(s, id, answer);
    case PumpSends(answer) => PumpSendKeepsQueue(s, answer);
    case _ =>
  }

  // ----- Every run

  ghost predicate Inv(s: State) {
    TasksInv(s) && QueueInv(s)
  }

  lemma StartIsFine()
    ensures Inv(START)
  {
  }

  lemma {:induction false} RunKeepsInv(s: State, steps: seq<Step>)
    requires Inv(s) && Possible(s, steps)
    ensures Inv(Run(s, steps))
    decreases |steps|
  {
    if steps == [] {
    } else {
      StepKeepsTasks(s, steps[0]);
      StepKeepsQueue(s, steps[0]);
      RunKeepsInv(Next(s, steps[0]), steps[1..]);
    }
  }

  /** In every interleaving of events, tasks and pumps: a session has at most one task,
      none starts after a success, and each failure allows exactly one more. */
  lemma OneRequestPerSession(steps: seq<Step>, x: string)
    requires Possible(START, steps)
    ensures var s := Run(START, steps);
            && OneAtATime(s.facts, x)
            && (forall i, j :: i in s.tasks && j in s.tasks && s.tasks[i].session == x == s.tasks[j].session ==> i == j)
  {
    StartIsFine();
    RunKeepsInv(START, steps);
    assert PhaseOk(Run(START, steps), x);
    UnbrokenIsOneAtATime(Run(START, steps).facts, x);
  }

  /** An undecryptable event starts a task if and only if its session has none and none of
      its tasks has succeeded. */
  lemma StartsExactlyWhenIdle(steps: seq<Step>, x: string, id: nat)
    requires Possible(START, steps) && id !in Run(START, steps).tasks
    ensures var s := Run(START, steps);
            id in Next(s, Undecryptable(Some(x), id)).tasks <==> !Running(s, x) && Succeeded(x) !in s.facts
  {
    var s := Run(START, steps);
    StartIsFine();
    RunKeepsInv(START, steps);
    DoneExactlyIfSucceeded(s.facts, x);
    assert PhaseOk(s, x);
  }

  lemma {:induction false} DoneExactlyIfSucceeded(facts: seq<Fact>, x: string)
    requires PhaseOf(facts, x) != Broken
    ensures PhaseOf(facts, x) == Done <==> Succeeded(x) in facts
    decreases |facts|
  {
    if facts == [] {
    } else {
      var before := facts[..|facts| - 1];
      DoneExactlyIfSucceeded(before, x);
      assert facts == before + [facts[|facts| - 1]];
    }
  }

  /** In every interleaving, each request the machine ever made is still queued or was
      answered just once; and what is sent, by a task or a pump, is queued. */
  lemma NoRequestIsLostOrResent(steps: seq<Step>, request: nat)
    requires Possible(START, steps)
    ensures var s := Run(START, steps);
            && NoDup(s.outgoing.queue + s.answered)
            && (request < s.outgoing.made <==> request in s.outgoing.queue + s.answered)
            && (forall id, answer :: Enabled(s, Sends(id, answer)) ==>
                  s.tasks[id].stage.todo != []
                  && s.tasks[id].stage.todo[0] in s.outgoing.queue && s.tasks[id].stage.todo[0] !in s.answered
                  && !s.holder.ThePump?)
            && (s.holder.ThePump? && s.holder.todo != [] ==>
                  s.holder.todo[0] in s.outgoing.queue && s.holder.todo[0] !in s.answered)
  {
    var s := Run(START, steps);
    StartIsFine();
    RunKeepsInv(START, steps);
    NoDupJoin(s.outgoing.queue, s.answered);
    ElemsConcat(s.outgoing.queue, s.answered);
    assert request in s.outgoing.queue + s.answered <==> request in Elems(s.outgoing.queue + s.answered);
    if Todo(s) != [] {
      assert Todo(s)[0] in Elems(Todo(s));
    }
  }

  // ----- An undisturbed pump does what Machine.Pump does

  /** The steps of a pump that holds the lock, with these answers and then none. */
  function PumpSteps(s: State, answers: seq<Answer>): seq<Step>
    requires s.holder.ThePump?
    decreases |answers|, if s.holder.todo == [] then 1 else 0
  {
    if s.holder.todo == [] then
      if answers != [] && answers[0].StoreFails? then [PumpAsks(false)]
      else if s.outgoing.queue == [] then [PumpAsks(true)]
      else [PumpAsks(true)] + PumpSteps(Next(s, PumpAsks(true)), answers)
    else if answers == [] then [PumpSends(Rejected)]
    else if !answers[0].Accepted? then [PumpSends(answers[0])]
    else [PumpSends(answers[0])] + PumpSteps(Next(s, PumpSends(answers[0])), answers[1..])
  }

  lemma RunFirst(s: State, step: Step, steps: seq<Step>)
    requires Enabled(s, step) && Possible(Next(s, step), steps)
    ensures Possible(s, [step] + steps) && Run(s, [step] + steps) == Run(Next(s, step), steps)
  {
    assert ([step] + steps)[1..] == steps;
  }

  lemma RunOne(s: State, step: Step)
    requires Enabled(s, step)
    ensures Possible(s, [step]) && Run(s, [step]) == Next(s, step)
  {
    assert Possible(Next(s, step), []);
    RunFirst(s, step, []);
    assert [step] + [] == [step];
  }

  lemma {:induction false} MoreFirst(answers: seq<Answer>, k: nat)
    requires k < |answers| && answers[0].Accepted?
    ensures More(answers[..k + 1]) == answers[0].more + More(answers[1..][..k])
  {
    if k == 0 {
      assert answers[..1] == [answers[0]] && answers[..1][..0] == [] == answers[1..][..0];
    } else {
      MoreFirst(answers, k - 1);
      MoreOneMore(answers, k);
      MoreOneMore(answers[1..], k - 1);
    }
  }

  lemma OutcomeFirst(queued: nat, answers: seq<Answer>, sent: nat, drained: bool)
    requires queued > 0 && answers != [] && answers[0].Accepted?
    requires Outcome(queued - 1 + answers[0].more, answers[1..], sent, drained)
    ensures Outcome(queued, answers, sent + 1, drained)
  {
    var rest := answers[1..];
    BacklogFirst(queued, answers, sent);
    forall i | 0 <= i < sent + 1
      ensures answers[i].Accepted?
    {
      assert i > 0 ==> answers[i] == rest[..sent][i - 1];
    }
    forall k | 0 <= k < sent + 1
      ensures Backlog(queued, answers, k) > 0
    {
      if k == 0 {
        assert answers[..k] == [];
      } else {
        BacklogFirst(queued, answers, k - 1);
        assert Backlog(queued - 1 + answers[0].more, rest, k - 1) > 0;
      }
    }
  }

  lemma BacklogFirst(queued: nat, answers: seq<Answer>, k: nat)
    requires queued > 0 && k < |answers| && answers[0].Accepted?
    ensures Backlog(queued, answers, k + 1) == Backlog(queued - 1 + answers[0].more, answers[1..], k)
  {
    MoreFirst(answers, k);
  }

  lemma ProgressFirst(o: Outgoing, answered: seq<nat>, o': Outgoing, answered': seq<nat>, answers: seq<Answer>,
                      sent: nat)
    requires o.Valid() && o.queue != [] && answers != [] && answers[0].Accepted? && sent < |answers|
    requires Progress(Mark(o, o.queue[0], answers[0].more), answered + [o.queue[0]], o', answered', answers[1..], sent)
    ensures Progress(o, answered, o', answered', answers, sent + 1)
  {
    var more, rest := answers[0].more, More(answers[1..][..sent]);
    MoreFirst(answers, sent);
    MarkFirst(o, more);
    ShiftOne(answered, o.queue, Numbers(o.made, more));
    NumbersConcat(o.made, more, rest);
    assert answered + o.queue + Numbers(o.made, more) + Numbers(o.made + more, rest)
           == answered + o.queue + (Numbers(o.made, more) + Numbers(o.made + more, rest));
  }

  lemma PumpStops(s: State, step: Step, answers: seq<Answer>, drained: bool)
    requires s.holder.ThePump? && Enabled(s, step) && PumpSteps(s, answers) == [step]
    requires Next(s, step) == s.(holder := Free)
    requires Outcome(|s.outgoing.queue|, answers, 0, drained)
    ensures PumpEnds(s, answers, 0, drained)
  {
    RunOne(s, step);
    ProgressStarts(s.outgoing, s.answered, answers);
  }

  /** The run of a pump comes to the outcome of its answers. */
  ghost predicate PumpEnds(s: State, answers: seq<Answer>, sent: nat, drained: bool)
    requires s.holder.ThePump?
  {
    && Possible(s, PumpSteps(s, answers))
    && Outcome(|s.outgoing.queue|, answers, sent, drained)
    && var s' := Run(s, PumpSteps(s, answers));
       && s' == s.(holder := Free, outgoing := s'.outgoing, answered := s'.answered)
       && Progress(s.outgoing, s.answered, s'.outgoing, s'.answered, answers, sent)
  }

  lemma {:induction false} PumpRuns(s: State, answers: seq<Answer>) returns (sent: nat, drained: bool)
    requires s.holder.ThePump? && s.outgoing.Valid() && s.holder.todo <= s.outgoing.queue
    ensures PumpEnds(s, answers, sent, drained)
    decreases |answers|, if s.holder.todo == [] then 2 else 1
  {
    var queued := |s.outgoing.queue|;
    assert answers[..0] == [];
    if s.holder.todo == [] && answers != [] && answers[0].StoreFails? {
      sent, drained := 0, false;
      PumpStops(s, PumpAsks(false), answers, false);
    } else if s.holder.todo == [] && s.outgoing.queue == [] {
      sent, drained := 0, true;
      PumpStops(s, PumpAsks(true), answers, true);
    } else if s.holder.todo == [] {
      var s1 := Next(s, PumpAsks(true));
      sent, drained := PumpRuns(s1, answers);
      RunFirst(s, PumpAsks(true), PumpSteps(s1, answers));
    } else if answers == [] || !answers[0].Accepted? {
      sent, drained := 0, false;
      PumpStops(s, PumpSends(if answers == [] then Rejected else answers[0]), answers, false);
    } else {
      sent, drained := PumpGoesOn(s, answers);
    }
  }

  lemma {:induction false} PumpGoesOn(s: State, answers: seq<Answer>) returns (sent: nat, drained: bool)
    requires s.holder.ThePump? && s.outgoing.Valid() && s.holder.todo != [] && s.holder.todo <= s.outgoing.queue
    requires answers != [] && answers[0].Accepted?
    ensures PumpEnds(s, answers, sent, drained)
    decreases |answers|, 0
  {
    var first, more := s.holder.todo[0], answers[0].more;
    var s1 := Next(s, PumpSends(answers[0]));
    MarkFirst(s.outgoing, more);
    MarkKeepsValid(s.outgoing, first, more);
    assert s.holder.todo == s.outgoing.queue[..|s.holder.todo|];
    assert s1.holder.todo <= s1.outgoing.queue;
    var n: nat;
    n, drained := PumpRuns(s1, answers[1..]);
    sent := n + 1;
    RunFirst(s, PumpSends(answers[0]), PumpSteps(s1, answers[1..]));
    OutcomeFirst(|s.outgoing.queue|, answers, n, drained);
    var s' := Run(s1, PumpSteps(s1, answers[1..]));
    ProgressFirst(s.outgoing, s.answered, s'.outgoing, s'.answered, answers, n);
  }

  /** From the same queue, with the same answers, a pump that no one disturbs leaves just
      what Machine.Pump leaves: whatever has that outcome is what the run comes to. */
  lemma UndisturbedPumpIsPump(s: State, answers: seq<Answer>, outgoing: Outgoing, answered: seq<nat>, sent: nat,
                              drained: bool)
    requires s.holder.Free? && s.outgoing.Valid()
    requires Outcome(|s.outgoing.queue|, answers, sent, drained)
    requires Progress(s.outgoing, s.answered, outgoing, answered, answers, sent)
    ensures var steps := [PumpLocks] + PumpSteps(Next(s, PumpLocks), answers);
            Possible(s, steps) && Run(s, steps) == s.(outgoing := outgoing, answered := answered)
  {
    var s1 := Next(s, PumpLocks);
    var sent2, drained2 := PumpRuns(s1, answers);
    OutcomeIsUnique(|s.outgoing.queue|, answers, sent, drained, sent2, drained2);
    RunFirst(s, PumpLocks, PumpSteps(s1, answers));
    var s' := Run(s1, PumpSteps(s1, answers));
    var all := answered + outgoing.queue;
    assert all == s'.answered + s'.outgoing.queue;
    assert answered == all[..|answered|] && outgoing.queue == all[|answered|..];
    assert s'.answered == all[..|answered|] && s'.outgoing.queue == all[|answered|..];
  }
}
