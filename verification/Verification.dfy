/** Recording how verification flows ended, in a race with the syncs that make the library
    drop them. */
module Verification {
  import opened Seqs
  import opened Json

  const MAX_FINISHED: nat := 32

  type FlowId = string
  type User = string

  /** A verification request as the library lists it. */
  datatype Request = Request(id: FlowId, ended: bool, summary: Json)

  datatype Log = Log(finished: map<FlowId, Json>, order: seq<FlowId>)
  {
    ghost predicate Valid() {
      finished.Keys == Elems(order) && NoDup(order) && |order| <= MAX_FINISHED
    }
  }

  function Record(log: Log, id: FlowId, summary: Json): Log {
    if id in log.finished then log.(finished := log.finished[id := summary])
    else if |log.order| < MAX_FINISHED then Log(log.finished[id := summary], log.order + [id])
    else Log(log.finished[id := summary] - {(log.order + [id])[0]}, (log.order + [id])[1..])
  }

  function RecordAll(log: Log, requests: seq<Request>): Log {
    if requests == [] then log
    else
      var before := RecordAll(log, requests[..|requests| - 1]);
      var r := requests[|requests| - 1];
      if r.ended then Record(before, r.id, r.summary) else before
  }

  /** The requests of several users, as they are listed one user after the other. */
  function Listing(users: seq<User>, requests: User -> seq<Request>): seq<Request> {
    if users == [] then [] else Listing(users[..|users| - 1], requests) + requests(users[|users| - 1])
  }

  lemma {:induction false} RecordAllConcat(log: Log, a: seq<Request>, b: seq<Request>)
    ensures RecordAll(log, a + b) == RecordAll(RecordAll(log, a), b)
  {
    if b == [] {
      assert a + b == a;
    } else {
      RecordAllConcat(log, a, b[..|b| - 1]);
      assert (a + b)[..|a + b| - 1] == a + b[..|b| - 1];
    }
  }

  lemma ListOneMore(log: Log, users: seq<User>, user: User, requests: User -> seq<Request>)
    ensures RecordAll(log, Listing(users + [user], requests))
            == RecordAll(RecordAll(log, Listing(users, requests)), requests(user))
  {
    assert (users + [user])[..|users|] == users;
    RecordAllConcat(log, Listing(users, requests), requests(user));
  }

  lemma {:induction false} ListingHolds(users: seq<User>, requests: User -> seq<Request>, r: Request)
    ensures r in Listing(users, requests) <==> exists u :: u in users && r in requests(u)
  {
    if users == [] {
    } else {
      var before, last := users[..|users| - 1], users[|users| - 1];
      ListingHolds(before, requests, r);
      assert users == before + [last];
    }
  }

  // ----- What a listing leaves in the log

  /** Is this flow listed as ended? */
  predicate EndsIn(requests: seq<Request>, id: FlowId) {
    exists i :: 0 <= i < |requests| && requests[i].id == id && requests[i].ended
  }

  /** The last word of a listing on a flow that has ended. */
  predicate LastWord(requests: seq<Request>, i: nat) {
    && i < |requests| && requests[i].ended
    && forall j :: i < j < |requests| && requests[j].id == requests[i].id ==> !requests[j].ended
  }

  /** What a listing makes of a log, where `entered` are the flows newly entered: only flows
      listed as ended are entered or changed; the newest MAX_FINISHED places stay; and each
      flow listed as ended is on record, by the last word on it, unless MAX_FINISHED newer ones
      came after its place. */
  ghost predicate Recorded(log: Log, log': Log, requests: seq<Request>, entered: seq<FlowId>) {
    && log'.Valid()
    && log'.order == Last(MAX_FINISHED, log.order + entered)
    && (forall id :: FlowRecorded(log, log', requests, entered, id))
    && (forall i: nat :: LastWord(requests, i) ==> WordStands(log', requests[i]))
  }

  ghost predicate FlowRecorded(log: Log, log': Log, requests: seq<Request>, entered: seq<FlowId>, id: FlowId) {
    if EndsIn(requests, id) then
      && id in log.order + entered
      && (id in log'.finished <==> Behind(log.order + entered, id) < MAX_FINISHED)
    else
      && id !in entered
      && (id in log'.finished ==> id in log.finished && log'.finished[id] == log.finished[id])
  }

  ghost predicate WordStands(log: Log, r: Request) {
    r.id in log.finished ==> log.finished[r.id] == r.summary
  }

  /** The flows a listing newly enters. */
  function Entered(log: Log, requests: seq<Request>): seq<FlowId> {
    if requests == [] then []
    else
      var before, r := requests[..|requests| - 1], requests[|requests| - 1];
      if r.ended && r.id !in RecordAll(log, before).finished then Entered(log, before) + [r.id]
      else Entered(log, before)
  }

  lemma RecordIs(log: Log, id: FlowId, summary: Json, other: FlowId)
    requires log.Valid()
    ensures var log' := Record(log, id, summary);
            && log'.Valid() && id in log'.finished && log'.finished[id] == summary
            && log'.order == (if id in log.finished then log.order else Last(MAX_FINISHED, log.order + [id]))
            && (other != id && other in log'.finished ==>
                  other in log.finished && log'.finished[other] == log.finished[other])
  {
    RecordKeepsValid(log, id, summary);
  }

  lemma LastOfEntered(log: Log, order: seq<FlowId>, entered: seq<FlowId>, id: FlowId)
    requires log.order == Last(MAX_FINISHED, order + entered)
    ensures Last(MAX_FINISHED, log.order + [id]) == Last(MAX_FINISHED, order + (entered + [id]))
  {
    LastOfLast(MAX_FINISHED, order + entered, [id]);
    assert order + entered + [id] == order + (entered + [id]);
  }

  lemma {:induction false} RecordAllOrder(log: Log, requests: seq<Request>)
    requires log.Valid()
    ensures RecordAll(log, requests).Valid()
    ensures RecordAll(log, requests).order == Last(MAX_FINISHED, log.order + Entered(log, requests))
  {
    if requests == [] {
      assert log.order + [] == log.order;
    } else {
      var before, r := requests[..|requests| - 1], requests[|requests| - 1];
      RecordAllOrder(log, before);
      var log1 := RecordAll(log, before);
      if r.ended {
        RecordKeepsValid(log1, r.id, r.summary);
        LastOfEntered(log1, log.order, Entered(log, before), r.id);
      }
    }
  }

  lemma EndsOneMore(requests: seq<Request>, r: Request, id: FlowId)
    ensures EndsIn(requests + [r], id) <==> EndsIn(requests, id) || (r.ended && r.id == id)
  {
    var all := requests + [r];
    if EndsIn(requests, id) {
      var i :| 0 <= i < |requests| && requests[i].id == id && requests[i].ended;
      assert all[i] == requests[i];
    }
    assert all[|requests|] == r;
  }

  lemma {:induction false} EndedAreEntered(log: Log, requests: seq<Request>, id: FlowId)
    requires log.Valid()
    ensures id in Entered(log, requests) ==> EndsIn(requests, id)
    ensures EndsIn(requests, id) ==> id in log.order + Entered(log, requests)
    ensures id in RecordAll(log, requests).finished && !EndsIn(requests, id) ==>
              id in log.finished && RecordAll(log, requests).finished[id] == log.finished[id]
  {
    if requests == [] {
    } else {
      var before, r := requests[..|requests| - 1], requests[|requests| - 1];
      assert requests == before + [r];
      EndedAreEntered(log, before, id);
      EndsOneMore(before, r, id);
      RecordAllOrder(log, before);
      var log1 := RecordAll(log, before);
      if r.ended {
        RecordIs(log1, r.id, r.summary, id);
        if r.id == id && id in log1.finished {
          assert id in Elems(log1.order);
          assert id in Last(MAX_FINISHED, log.order + Entered(log, before));
        }
      }
    }
  }

  lemma {:induction false} LastWordStands(log: Log, requests: seq<Request>, i: nat)
    requires log.Valid() && LastWord(requests, i)
    ensures WordStands(RecordAll(log, requests), requests[i])
    decreases |requests|
  {
    var n := |requests| - 1;
    var before, r := requests[..n], requests[n];
    RecordAllOrder(log, before);
    if i == n {
      RecordIs(RecordAll(log, before), r.id, r.summary, r.id);
    } else {
      assert before[i] == requests[i] && LastWord(before, i);
      LastWordStands(log, before, i);
      if r.ended {
        RecordIs(RecordAll(log, before), r.id, r.summary, requests[i].id);
      }
    }
  }

  lemma OnRecordExactlyIf(log: Log, requests: seq<Request>, id: FlowId)
    requires log.Valid() && EndsIn(requests, id)
    ensures var all := log.order + Entered(log, requests);
            && id in all
            && (id in RecordAll(log, requests).finished <==> Behind(all, id) < MAX_FINISHED)
  {
    EndedAreEntered(log, requests, id);
    RecordAllOrder(log, requests);
    InLast(MAX_FINISHED, log.order + Entered(log, requests), id);
    var log' := RecordAll(log, requests);
    assert id in log'.finished <==> id in Elems(log'.order);
  }

  lemma ListingIsRecorded(log: Log, requests: seq<Request>)
    requires log.Valid()
    ensures Recorded(log, RecordAll(log, requests), requests, Entered(log, requests))
  {
    var log' := RecordAll(log, requests);
    RecordAllOrder(log, requests);
    forall id
      ensures FlowRecorded(log, log', requests, Entered(log, requests), id)
    {
      EndedAreEntered(log, requests, id);
      if EndsIn(requests, id) {
        OnRecordExactlyIf(log, requests, id);
      }
    }
    forall i: nat | LastWord(requests, i)
      ensures WordStands(log', requests[i])
    {
      LastWordStands(log, requests, i);
    }
  }

  lemma ListedAre(visited: seq<User>, users: set<User>, own: User, requests: User -> seq<Request>)
    requires Elems(visited) == users
    ensures forall r :: r in Listing(visited + [own], requests)
              <==> (exists u :: u in users && r in requests(u)) || r in requests(own)
  {
    assert forall u :: u in visited + [own] <==> u in Elems(visited) || u == own;
    forall r
      ensures r in Listing(visited + [own], requests)
              <==> (exists u :: u in users && r in requests(u)) || r in requests(own)
    {
      ListingHolds(visited + [own], requests, r);
      if exists u :: u in users && r in requests(u) {
        var u :| u in users && r in requests(u);
        assert u in visited + [own];
      }
      assert own in visited + [own];
    }
  }

  class VerificationLog {
    var users: set<User>
    var finished: map<FlowId, Json>
    var order: seq<FlowId>

    function View(): Log
      reads this
    {
      Log(finished, order)
    }

    constructor ()
      ensures users == {} && View() == Log(map[], []) && View().Valid()
    {
      users, finished, order := {}, map[], [];
    }

    method Watch(user: User)
      modifies this`users
      ensures users == old(users) + {user}
    {
      users := users + {user};
    }

    method RecordOne(id: FlowId, summary: Json)
      requires View().Valid()
      modifies this`finished, this`order
      ensures View() == Record(old(View()), id, summary) && View().Valid()
    {
      RecordKeepsValid(View(), id, summary);
      var isNew := id !in finished;
      finished := finished[id := summary];
      if isNew {
        order := order + [id];
        if |order| > MAX_FINISHED {
          finished := finished - {order[0]};
          order := order[1..];
        }
      }
    }

    /** Goes over the watched users in some order and the account's own last, and records
        what is listed as ended. */
    method RecordFinished(own: User, requests: User -> seq<Request>)
      returns (ghost listed: seq<Request>, ghost entered: seq<FlowId>, ghost visited: seq<User>)
      requires View().Valid()
      modifies this`finished, this`order
      ensures NoDup(visited) && Elems(visited) == users
      ensures listed == Listing(visited + [own], requests)
      ensures View() == RecordAll(old(View()), listed) && View().Valid()
      // Listed are the requests of the users watched and of the account's own.
      ensures forall r :: r in listed <==> (exists u :: u in users && r in requests(u)) || r in requests(own)
      ensures Recorded(old(View()), View(), listed, entered)
    {
      ghost var log := View();
      var left := users;
      visited := [];
      while left != {}
        invariant NoDup(visited) && Elems(visited) !! left && Elems(visited) + left == users
        invariant View() == RecordAll(old(View()), Listing(visited, requests)) && View().Valid()
        decreases left
      {
        var user :| user in left;
        left := left - {user};
        NoDupAppend(visited, user);
        ElemsConcat(visited, [user]);
        ListOneMore(old(View()), visited, user, requests);
        visited := visited + [user];
        RecordListed(requests(user));
      }
      ListOneMore(old(View()), visited, own, requests);
      RecordListed(requests(own));
      listed := Listing(visited + [own], requests);
      entered := Entered(log, listed);
      ListingIsRecorded(log, listed);
      ListedAre(visited, users, own, requests);
    }

    method RecordListed(requests: seq<Request>)
      requires View().Valid()
      modifies this`finished, this`order
      ensures View() == RecordAll(old(View()), requests) && View().Valid()
    {
      for i := 0 to |requests|
        invariant View() == RecordAll(old(View()), requests[..i]) && View().Valid()
      {
        assert requests[..i + 1][..i] == requests[..i];
        if requests[i].ended {
          RecordOne(requests[i].id, requests[i].summary);
        }
      }
      assert requests[..|requests|] == requests;
    }

    /** The outcomes on record, oldest first. */
    method All() returns (summaries: seq<Json>)
      requires View().Valid()
      ensures |summaries| == |order|
      ensures forall i :: 0 <= i < |order| ==> order[i] in finished && summaries[i] == finished[order[i]]
    {
      assert forall i :: 0 <= i < |order| ==> order[i] in Elems(order);
      summaries := [];
      for i := 0 to |order|
        invariant |summaries| == i
        invariant forall j :: 0 <= j < i ==> order[j] in finished && summaries[j] == finished[order[j]]
      {
        summaries := summaries + [finished[order[i]]];
      }
    }
  }

  lemma RecordKeepsValid(log: Log, id: FlowId, summary: Json)
    requires log.Valid()
    ensures Record(log, id, summary).Valid()
    ensures id in Record(log, id, summary).finished && Record(log, id, summary).finished[id] == summary
    ensures Record(log, id, summary).order
            == if id in log.finished then log.order else Last(MAX_FINISHED, log.order + [id])
  {
    if id !in log.finished {
      OneMorePlace(log.order, id);
      if |log.order| == MAX_FINISHED {
        PushesOut(log.order, id);
      }
    }
  }

  lemma OneMorePlace(order: seq<FlowId>, id: FlowId)
    requires NoDup(order) && id !in Elems(order)
    ensures NoDup(order + [id]) && Elems(order + [id]) == Elems(order) + {id}
  {
    NoDupAppend(order, id);
    ElemsConcat(order, [id]);
    assert Elems([id]) == {id};
  }

  lemma PushesOut(order: seq<FlowId>, id: FlowId)
    requires NoDup(order) && id !in Elems(order) && |order| == MAX_FINISHED
    ensures var all := order + [id];
            && all[0] != id && NoDup(all[1..]) && Elems(all[1..]) == Elems(order) + {id} - {all[0]}
            && all[1..] == Last(MAX_FINISHED, all)
  {
    OneMorePlace(order, id);
    WithoutFirst(order + [id]);
    assert order[0] in Elems(order);
  }

  // ----- Runs

  datatype Flow = Flow(user: User, ended: bool)

  /** Who holds off sync processing: nobody, or a section that may end flows and then
      records the ones it finds ended. */
  datatype Holder = Nobody | Working | Recording(todo: set<FlowId>)

  /** The library's flows, the log, every flow entered into it in order, and the flows
      that the library has forgotten. */
  datatype State = State(
    own: User, flows: map<FlowId, Flow>, holder: Holder,
    log: Log, entered: seq<FlowId>, ever: set<FlowId>, forgotten: set<FlowId>)

  datatype Step =
    | SyncBegins
    | PauseBegins
    | Starts(id: FlowId, user: User)
    | EndsInside(id: FlowId)
    | Lists(watched: set<User>)
    | RecordsListed(id: FlowId, summary: Json)
    | Finishes
    | FailsInside
    | RecordsElsewhere(id: FlowId, summary: Json)

  function OwnEnded(s: State): set<FlowId> {
    set id | id in s.flows && s.flows[id].ended && s.flows[id].user == s.own
  }

  predicate Enabled(s: State, step: Step) {
    match step
    case SyncBegins => s.holder.Nobody?
    case PauseBegins => s.holder.Nobody?
    // A flow's ID is its own: no later flow has it.
    case Starts(id, _) => id !in s.flows && id !in s.ever
    case EndsInside(id) => s.holder.Working? && id in s.flows
    case Lists(_) => s.holder.Working?
    case RecordsListed(id, _) => s.holder.Recording? && id in s.holder.todo
    case Finishes => s.holder.Recording? && s.holder.todo == {}
    case FailsInside => s.holder.Working?
    case RecordsElsewhere(id, _) => id in s.ever
  }

  function Enter(s: State, id: FlowId, summary: Json): State {
    s.(log := Record(s.log, id, summary),
       entered := if id in s.log.finished then s.entered else s.entered + [id])
  }

  function Next(s: State, step: Step): State
    requires Enabled(s, step)
  {
    match step
    case SyncBegins =>
      // The library drops the ended flows as it begins to process a sync.
      s.(holder := Working, flows := map id | id in s.flows && !s.flows[id].ended :: s.flows[id],
         forgotten := s.forgotten + OwnEnded(s))
    case PauseBegins => s.(holder := Working)
    case Starts(id, user) => s.(flows := s.flows[id := Flow(user, false)])
    case EndsInside(id) => s.(flows := s.flows[id := s.flows[id].(ended := true)], ever := s.ever + {id})
    case Lists(watched) =>
      s.(holder := Recording(set id | id in s.flows && s.flows[id].ended
                                      && (s.flows[id].user in watched || s.flows[id].user == s.own)))
    case RecordsListed(id, summary) => Enter(s, id, summary).(holder := Recording(s.holder.todo - {id}))
    case Finishes => s.(holder := Nobody)
    case FailsInside => s.(holder := Nobody)
    case RecordsElsewhere(id, summary) => Enter(s, id, summary)
  }

  predicate Possible(s: State, steps: seq<Step>)
    decreases |steps|
  {
    steps == [] || (Enabled(s, steps[0]) && Possible(Next(s, steps[0]), steps[1..]))
  }

  function Run(s: State, steps: seq<Step>): State
    requires Possible(s, steps)
    decreases |steps|
  {
    if steps == [] then s else Run(Next(s, steps[0]), steps[1..])
  }

  /** The log holds the newest MAX_FINISHED flows entered. */
  ghost predicate LogOk(s: State) {
    s.log.Valid() && s.log.order == Last(MAX_FINISHED, s.entered)
  }

  lemma EnterKeeps(s: State, id: FlowId, summary: Json)
    requires LogOk(s)
    ensures LogOk(Enter(s, id, summary))
    ensures Elems(Enter(s, id, summary).entered) == Elems(s.entered) + {id}
  {
    RecordKeepsValid(s.log, id, summary);
    ElemsConcat(s.entered, [id]);
    assert Elems([id]) == {id};
    if id in s.log.finished {
      assert id in Elems(s.log.order);
      LastWithin(s.entered, id);
    } else {
      LastOfLast(MAX_FINISHED, s.entered, [id]);
    }
  }

  lemma LastWithin(s: seq<FlowId>, id: FlowId)
    requires id in Elems(Last(MAX_FINISHED, s))
    ensures id in Elems(s)
  {
  }

  lemma {:induction false} LogStaysOk(s: State, steps: seq<Step>)
    requires LogOk(s) && Possible(s, steps)
    ensures LogOk(Run(s, steps))
    decreases |steps|
  {
    if steps == [] {
    } else {
      match steps[0] {
        case RecordsListed(id, summary) => EnterKeeps(s, id, summary);
        case RecordsElsewhere(id, summary) => EnterKeeps(s, id, summary);
        case _ =>
      }
      LogStaysOk(Next(s, steps[0]), steps[1..]);
    }
  }

  // ----- Flows that a failing section leaves behind

  /** Own flows that the section under way has ended and no one has recorded, after a step. */
  function OpenAfter(s: State, step: Step, open: set<FlowId>): set<FlowId>
    requires Enabled(s, step)
  {
    match step
    case EndsInside(id) => if s.flows[id].user == s.own && !s.flows[id].ended then open + {id} else open
    case RecordsListed(id, _) => open - {id}
    case RecordsElsewhere(id, _) => open - {id}
    case Finishes => {}
    case FailsInside => {}
    case _ => open
  }

  /** Those that sections left behind by failing, and no one has recorded since. */
  function LeftAfter(step: Step, open: set<FlowId>, left: set<FlowId>): set<FlowId> {
    match step
    case FailsInside => left + open
    case RecordsListed(id, _) => left - {id}
    case RecordsElsewhere(id, _) => left - {id}
    case _ => left
  }

  /** Whatever own flow a section ends before it fails is recorded, by a later section or
      by anyone else, before the next sync begins. */
  predicate RecordedInTime(s: State, steps: seq<Step>, open: set<FlowId>, left: set<FlowId>)
    requires Possible(s, steps)
    decreases |steps|
  {
    steps == []
    || (&& (steps[0].SyncBegins? ==> left == {})
        && RecordedInTime(Next(s, steps[0]), steps[1..], OpenAfter(s, steps[0], open), LeftAfter(steps[0], open, left)))
  }

  /** What the library has forgotten was on record. */
  ghost predicate Kept(s: State) {
    s.forgotten <= Elems(s.entered)
  }

  ghost predicate KeptThroughout(s: State, steps: seq<Step>)
    requires Possible(s, steps)
    decreases |steps|
  {
    Kept(s) && (steps == [] || KeptThroughout(Next(s, steps[0]), steps[1..]))
  }

  /** Own flows that have ended and are not on record: those the section under way has
      ended, and those left behind. */
  ghost predicate Accounted(s: State, open: set<FlowId>, left: set<FlowId>) {
    && OwnEnded(s) - Elems(s.entered) == open + left
    && match s.holder
       case Nobody => open == {}
       case Working => true
       case Recording(todo) => open + left <= todo <= s.ever
  }

  /** Only flows that have ended are on record, and none that has is said to go on. */
  ghost predicate Ended(s: State) {
    && Elems(s.entered) <= s.ever
    && forall id :: id in s.flows ==> (s.flows[id].ended <==> id in s.ever)
  }

  ghost predicate Inv(s: State, open: set<FlowId>, left: set<FlowId>) {
    LogOk(s) && Kept(s) && Ended(s) && Accounted(s, open, left)
  }

  lemma EnterAccounts(s: State, id: FlowId, summary: Json, open: set<FlowId>, left: set<FlowId>)
    requires Inv(s, open, left) && id in s.ever
    ensures var s' := Enter(s, id, summary);
            && LogOk(s') && Kept(s') && Ended(s')
            && OwnEnded(s') - Elems(s'.entered) == (open - {id}) + (left - {id})
  {
    EnterKeeps(s, id, summary);
    var s' := Enter(s, id, summary);
    assert OwnEnded(s') == OwnEnded(s);
    assert OwnEnded(s) - Elems(s'.entered) == (OwnEnded(s) - Elems(s.entered)) - {id};
    assert (open + left) - {id} == (open - {id}) + (left - {id});
  }

  lemma EndAccounts(s: State, id: FlowId, open: set<FlowId>, left: set<FlowId>)
    requires Inv(s, open, left) && Enabled(s, EndsInside(id))
    ensures Inv(Next(s, EndsInside(id)), OpenAfter(s, EndsInside(id), open), left)
  {
    var s' := Next(s, EndsInside(id));
    if s.flows[id].user == s.own && !s.flows[id].ended {
      assert id !in Elems(s.entered);
      assert OwnEnded(s') == OwnEnded(s) + {id};
      assert OwnEnded(s') - Elems(s.entered) == (OwnEnded(s) - Elems(s.entered)) + {id} == (open + {id}) + left;
    } else {
      assert OwnEnded(s') == OwnEnded(s);
    }
  }

  lemma ListAccounts(s: State, watched: set<User>, open: set<FlowId>, left: set<FlowId>)
    requires Inv(s, open, left) && Enabled(s, Lists(watched))
    ensures Inv(Next(s, Lists(watched)), open, left)
  {
    var s' := Next(s, Lists(watched));
    assert OwnEnded(s') == OwnEnded(s) <= s'.holder.todo;
  }

  lemma SyncAccounts(s: State, open: set<FlowId>, left: set<FlowId>)
    requires Inv(s, open, left) && Enabled(s, SyncBegins)
    ensures Kept(Next(s, SyncBegins)) <==> left == {}
    ensures left == {} ==> Inv(Next(s, SyncBegins), {}, {})
  {
    assert OwnEnded(Next(s, SyncBegins)) == {};
    assert OwnEnded(s) - Elems(s.entered) == left;
    if left == {} {
      assert forall id :: id in OwnEnded(s) && id !in Elems(s.entered) ==> id in OwnEnded(s) - Elems(s.entered);
    } else {
      var id :| id in left;
      assert id in OwnEnded(s) && id !in Elems(s.entered);
    }
  }

  lemma StepAccounts(s: State, step: Step, open: set<FlowId>, left: set<FlowId>)
    requires Inv(s, open, left) && Enabled(s, step)
    ensures Kept(Next(s, step)) <==> (step.SyncBegins? ==> left == {})
    ensures Kept(Next(s, step)) ==> Inv(Next(s, step), OpenAfter(s, step, open), LeftAfter(step, open, left))
  {
    match step
    case SyncBegins => SyncAccounts(s, open, left);
    case EndsInside(id) => EndAccounts(s, id, open, left);
    case Lists(watched) => ListAccounts(s, watched, open, left);
    case RecordsListed(id, summary) => EnterAccounts(s, id, summary, open, left);
    case RecordsElsewhere(id, summary) => EnterAccounts(s, id, summary, open, left);
    case _ => assert OwnEnded(Next(s, step)) == OwnEnded(s);
  }

  lemma {:induction false} KeptExactlyWhen(s: State, steps: seq<Step>, open: set<FlowId>, left: set<FlowId>)
    requires Inv(s, open, left) && Possible(s, steps)
    ensures KeptThroughout(s, steps) <==> RecordedInTime(s, steps, open, left)
    decreases |steps|
  {
    if steps == [] {
    } else {
      var s1 := Next(s, steps[0]);
      StepAccounts(s, steps[0], open, left);
      if Kept(s1) {
        KeptExactlyWhen(s1, steps[1..], OpenAfter(s, steps[0], open), LeftAfter(steps[0], open, left));
      } else {
        assert !KeptThroughout(s1, steps[1..]);
      }
    }
  }

  predicate Initial(s: State) {
    && s.flows == map[] && s.holder == Nobody && s.log == Log(map[], []) && s.entered == []
    && s.ever == {} && s.forgotten == {}
  }

  lemma InitialIsAccounted(s: State)
    requires Initial(s)
    ensures Inv(s, {}, {})
  {
  }

  /** In every interleaving of syncs, paused admin actions and other recorders: every own
      flow that a sync makes the library forget was on record by then, if and only if what
      failing sections have ended is recorded before the next sync. */
  lemma FinishedFlowsAreKeptExactlyWhen(s: State, steps: seq<Step>)
    requires Initial(s) && Possible(s, steps)
    ensures KeptThroughout(s, steps) <==> RecordedInTime(s, steps, {}, {})
  {
    InitialIsAccounted(s);
    KeptExactlyWhen(s, steps, {}, {});
  }

  /** The newest entry of a flow keeps it in the log until MAX_FINISHED newer ones. */
  lemma EntryStays(s: State, p: nat)
    requires LogOk(s) && p < |s.entered| && |s.entered| - p <= MAX_FINISHED
    ensures s.entered[p] in s.log.finished
  {
    var newest := Last(MAX_FINISHED, s.entered);
    assert newest[|newest| - (|s.entered| - p)] == s.entered[p];
    assert s.entered[p] in Elems(s.log.order);
  }

  /** A flow ended by a section that then fails is forgotten by the next sync unseen. */
  lemma FailedSectionLosesFlow(s: State, id: FlowId)
    requires s.holder.Nobody? && id in s.flows && !s.flows[id].ended && s.flows[id].user == s.own
    requires id !in s.entered
    ensures var steps := [PauseBegins, EndsInside(id), FailsInside, SyncBegins];
            Possible(s, steps) && id in Run(s, steps).forgotten && id !in Run(s, steps).entered
  {
    var steps := [PauseBegins, EndsInside(id), FailsInside, SyncBegins];
    var s1 := Next(s, PauseBegins);
    var s2 := Next(s1, EndsInside(id));
    var s3 := Next(s2, FailsInside);
    var s4 := Next(s3, SyncBegins);
    assert steps[1..] == [EndsInside(id), FailsInside, SyncBegins];
    assert steps[1..][1..] == [FailsInside, SyncBegins] && steps[1..][1..][1..] == [SyncBegins];
    assert steps[1..][1..][1..][1..] == [];
    assert Possible(s4, []) && Run(s4, []) == s4;
    assert Possible(s3, [SyncBegins]) && Run(s3, [SyncBegins]) == s4;
    assert Possible(s2, [FailsInside, SyncBegins]) && Run(s2, [FailsInside, SyncBegins]) == s4;
    assert Possible(s1, steps[1..]) && Run(s1, steps[1..]) == s4;
  }

  // ----- An undisturbed section records what RecordFinished does

  lemma RecordAllFirst(log: Log, r: Request, rest: seq<Request>)
    ensures RecordAll(log, [r] + rest) == RecordAll(if r.ended then Record(log, r.id, r.summary) else log, rest)
  {
    RecordAllConcat(log, [r], rest);
    assert [r][..0] == [];
    assert RecordAll(log, [r]) == if r.ended then Record(log, r.id, r.summary) else log;
  }

  /** One step for each listed flow that has ended; one that is listed twice is recorded a
      second time. */
  function RecordSteps(todo: set<FlowId>, requests: seq<Request>): seq<Step> {
    if requests == [] then []
    else
      var r, rest := requests[0], requests[1..];
      if !r.ended then RecordSteps(todo, rest)
      else if r.id in todo then [RecordsListed(r.id, r.summary)] + RecordSteps(todo - {r.id}, rest)
      else [RecordsElsewhere(r.id, r.summary)] + RecordSteps(todo, rest)
  }

  lemma RunFirst(s: State, step: Step, steps: seq<Step>)
    requires Enabled(s, step) && Possible(Next(s, step), steps)
    ensures Possible(s, [step] + steps) && Run(s, [step] + steps) == Run(Next(s, step), steps)
  {
    assert ([step] + steps)[1..] == steps;
  }

  function EndedIds(requests: seq<Request>): set<FlowId> {
    set r | r in requests && r.ended :: r.id
  }

  lemma {:induction false} RecordRuns(s: State, requests: seq<Request>)
    requires s.holder.Recording? && EndedIds(requests) <= s.ever
    ensures Possible(s, RecordSteps(s.holder.todo, requests))
    ensures var s' := Run(s, RecordSteps(s.holder.todo, requests));
            s'.log == RecordAll(s.log, requests) && s'.holder == Recording(s.holder.todo - EndedIds(requests))
    decreases |requests|
  {
    if requests == [] {
      assert s.holder.todo - EndedIds([]) == s.holder.todo;
    } else {
      var r, rest, todo := requests[0], requests[1..], s.holder.todo;
      assert requests == [r] + rest;
      RecordAllFirst(s.log, r, rest);
      assert EndedIds(requests) == EndedIds(rest) + if r.ended then {r.id} else {};
      if r.ended {
        assert r.id in s.ever;
        var step := if r.id in todo then RecordsListed(r.id, r.summary) else RecordsElsewhere(r.id, r.summary);
        var s1 := Next(s, step);
        RecordRuns(s1, rest);
        RunFirst(s, step, RecordSteps(s1.holder.todo, rest));
        assert todo - {r.id} - EndedIds(rest) == todo - EndedIds(requests);
        assert r.id !in todo ==> todo - EndedIds(rest) == todo - EndedIds(requests);
      } else {
        RecordRuns(s, rest);
      }
    }
  }

  /** The library lists each of its flows under its user, and no others. */
  ghost predicate IsListing(s: State, requests: User -> seq<Request>) {
    && (forall u, r :: r in requests(u) ==>
          r.id in s.flows && s.flows[r.id].user == u && s.flows[r.id].ended == r.ended)
    && (forall id :: id in s.flows ==> exists r :: r in requests(s.flows[id].user) && r.id == id)
  }

  function SectionEnd(s: State, watched: set<User>, listed: seq<Request>): seq<Step>
    requires Enabled(s, Lists(watched))
  {
    [Lists(watched)] + (RecordSteps(Next(s, Lists(watched)).holder.todo, listed) + [Finishes])
  }

  lemma {:induction false} RunConcat(s: State, a: seq<Step>, b: seq<Step>)
    requires Possible(s, a) && Possible(Run(s, a), b)
    ensures Possible(s, a + b) && Run(s, a + b) == Run(Run(s, a), b)
    decreases |a|
  {
    if a == [] {
      assert a + b == b;
    } else {
      RunConcat(Next(s, a[0]), a[1..], b);
      assert (a + b)[1..] == a[1..] + b;
    }
  }

  /** What a section has to record is just what is listed as ended. */
  lemma TodoIsListed(s: State, watched: set<User>, requests: User -> seq<Request>, listed: seq<Request>)
    requires s.holder.Working? && IsListing(s, requests)
    requires forall r :: r in listed <==> (exists u :: u in watched && r in requests(u)) || r in requests(s.own)
    ensures Next(s, Lists(watched)).holder.todo == EndedIds(listed)
    ensures EndedIds(listed) <= s.flows.Keys && forall id :: id in EndedIds(listed) ==> s.flows[id].ended
  {
    var todo := Next(s, Lists(watched)).holder.todo;
    forall id | id in todo
      ensures id in EndedIds(listed)
    {
      var r :| r in requests(s.flows[id].user) && r.id == id;
      assert r in listed && r.ended;
    }
    forall r | r in listed && r.ended
      ensures r.id in todo && r.id in s.flows && s.flows[r.id].ended
    {
      if r !in requests(s.own) {
        var u :| u in watched && r in requests(u);
      }
    }
  }

  /** A section that nothing disturbs once it lists leaves the log that RecordFinished leaves
      from the same listing. */
  lemma UndisturbedSectionIsRecordFinished(s: State, watched: set<User>, requests: User -> seq<Request>,
                                           listed: seq<Request>)
    requires s.holder.Working? && Ended(s) && IsListing(s, requests)
    requires forall r :: r in listed <==> (exists u :: u in watched && r in requests(u)) || r in requests(s.own)
    ensures Possible(s, SectionEnd(s, watched, listed))
    ensures var s' := Run(s, SectionEnd(s, watched, listed));
            s'.log == RecordAll(s.log, listed) && s'.holder == Nobody
  {
    var s1 := Next(s, Lists(watched));
    var steps := RecordSteps(s1.holder.todo, listed);
    TodoIsListed(s, watched, requests, listed);
    RecordRuns(s1, listed);
    var s2 := Run(s1, steps);
    assert s2.holder.todo == {};
    assert Possible(Next(s2, Finishes), []);
    RunFirst(s2, Finishes, []);
    assert [Finishes] + [] == [Finishes];
    RunConcat(s1, steps, [Finishes]);
    RunFirst(s, Lists(watched), steps + [Finishes]);
  }
}
