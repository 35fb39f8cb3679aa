/** The machine's outgoing requests and the pump that sends them. */
module Pump {
  import opened Seqs

  /** The requests by number, oldest first, and how many the machine has made. */
  datatype Outgoing = Outgoing(queue: seq<nat>, made: nat) {
    ghost predicate Valid() {
      NoDup(queue) && forall id :: id in queue ==> id < made
    }
  }

  function Numbers(first: nat, n: nat): (r: seq<nat>)
    ensures |r| == n && forall i :: 0 <= i < n ==> r[i] == first + i
  {
    seq(n, i => first + i)
  }

  function Make(o: Outgoing, n: nat): Outgoing {
    Outgoing(o.queue + Numbers(o.made, n), o.made + n)
  }

  /** A request was answered, and the machine made n more out of the answer. */
  function Mark(o: Outgoing, id: nat, n: nat): Outgoing {
    Make(o.(queue := Without(o.queue, {id})), n)
  }

  lemma MakeKeepsValid(o: Outgoing, n: nat)
    requires o.Valid()
    ensures Make(o, n).Valid()
  {
    var new_ := Numbers(o.made, n);
    assert forall id :: id in new_ ==> o.made <= id < o.made + n;
    NoDupJoin(o.queue, new_);
  }

  lemma MarkKeepsValid(o: Outgoing, id: nat, n: nat)
    requires o.Valid()
    ensures Mark(o, id, n).Valid()
  {
    WithoutNoDup(o.queue, {id});
    WithoutElems(o.queue, {id});
    assert forall x :: x in Without(o.queue, {id}) ==> x in Elems(Without(o.queue, {id}));
    MakeKeepsValid(o.(queue := Without(o.queue, {id})), n);
  }

  lemma MarkFirst(o: Outgoing, n: nat)
    requires o.Valid() && o.queue != []
    ensures Mark(o, o.queue[0], n).queue == o.queue[1..] + Numbers(o.made, n)
  {
    assert o.queue == [o.queue[0]] + o.queue[1..];
    WithoutHead(o.queue[0], o.queue[1..]);
  }

  /** What comes of sending a request: an answer that makes more requests, or a failure.
      The machine's store may also fail when asked for its requests. */
  datatype Answer = Accepted(more: nat) | Rejected | StoreFails

  function More(answers: seq<Answer>): nat {
    if answers == [] then 0
    else More(answers[..|answers| - 1])
         + (var a := answers[|answers| - 1]; if a.Accepted? then a.more else 0)
  }

  ghost predicate AllAccepted(answers: seq<Answer>) {
    forall i :: 0 <= i < |answers| ==> answers[i].Accepted?
  }

  /** How many requests wait after the first k answers. */
  function Backlog(queued: nat, answers: seq<Answer>, k: nat): int
    requires k <= |answers|
  {
    queued + More(answers[..k]) - k
  }

  /** What a pump does with a queue of this length and these answers: it goes on until
      nothing is left, or stops at the first failure. */
  ghost predicate Outcome(queued: nat, answers: seq<Answer>, sent: nat, drained: bool) {
    && sent <= |answers|
    && Going(queued, answers, sent)
    && (drained <==> Backlog(queued, answers, sent) == 0 && (sent < |answers| ==> !answers[sent].StoreFails?))
    && (!drained && sent < |answers| ==> !answers[sent].Accepted?)
  }

  /** The answers leave a pump no choice. */
  lemma OutcomeIsUnique(queued: nat, answers: seq<Answer>, sent: nat, drained: bool, sent2: nat, drained2: bool)
    requires Outcome(queued, answers, sent, drained) && Outcome(queued, answers, sent2, drained2)
    ensures sent == sent2 && drained == drained2
  {
  }

  const MAX_BATCHES: nat := 100

  /** So many batches were uploaded, each with a good answer and none of them empty; of so
      many keys they had this many. */
  ghost predicate BatchesDone(total: nat, done: int, batch: nat, uploads: seq<bool>, n: nat) {
    && n <= |uploads| && (forall j :: 0 <= j < n ==> uploads[j])
    && done == (if n * batch <= total then n * batch else total)
    && (n > 0 ==> (n - 1) * batch < total)
  }

  /** Uploading ends well with all keys saved, or with MAX_BATCHES batches; otherwise it stops
      at the first failure. */
  ghost predicate BackedUp(total: nat, done: int, batch: nat, uploads: seq<bool>, ok: bool) {
    exists n: nat ::
      && BatchesDone(total, done, batch, uploads, n)
      && if ok then done == total || n == MAX_BATCHES
         else done < total && n < MAX_BATCHES && (n == |uploads| || !uploads[n])
  }

  lemma OneMoreBatch(total: nat, done: int, batch: nat, uploads: seq<bool>, n: nat)
    requires BatchesDone(total, done, batch, uploads, n) && done < total && n < |uploads| && uploads[n]
    ensures var size := if batch < total - done then batch else total - done;
            BatchesDone(total, done + size, batch, uploads, n + 1)
  {
    assert (n + 1) * batch == n * batch + batch;
  }

  class Machine {
    var outgoing: Outgoing
    /** Requests whose answer the machine has taken, in order. */
    var answered: seq<nat>
    var backupEnabled: bool
    /** Room keys not yet in the backup, and those that are. */
    var unsaved: seq<nat>
    var saved: seq<nat>
    /** How many keys go into one backup request. */
    const batch: nat

    ghost predicate Valid()
      reads this
    {
      outgoing.Valid() && batch > 0
    }

    /** Send one request: if it is answered, it leaves the queue. */
    method SendAndMark(id: nat, answer: Answer) returns (ok: bool)
      requires Valid()
      modifies this`outgoing, this`answered
      ensures Valid() && ok == answer.Accepted?
      ensures outgoing == if ok then Mark(old(outgoing), id, answer.more) else old(outgoing)
      ensures answered == if ok then old(answered) + [id] else old(answered)
    {
      if answer.Accepted? {
        MarkKeepsValid(outgoing, id, answer.more);
        outgoing := Mark(outgoing, id, answer.more);
        answered := answered + [id];
      }
      ok := answer.Accepted?;
    }

    /** Send what is queued, with these answers and then none; with all of it sent, save
        room keys with these answers. */
    method Pump(answers: seq<Answer>, uploads: seq<bool>) returns (drained: bool, sent: nat)
      requires Valid()
      modifies this
      ensures Valid() && backupEnabled == old(backupEnabled)
      ensures Outcome(|old(outgoing.queue)|, answers, sent, drained)
      // Only answered requests leave the queue, in order; all others stay.
      ensures Progress(old(outgoing), old(answered), outgoing, answered, answers, sent)
      ensures drained ==> outgoing.queue == []
      ensures saved + unsaved == old(saved) + old(unsaved)
      ensures !drained || !backupEnabled ==> unsaved == old(unsaved)
      ensures drained && backupEnabled ==>
                || BackedUp(|old(unsaved)|, |saved| - |old(saved)|, batch, uploads, true)
                || BackedUp(|old(unsaved)|, |saved| - |old(saved)|, batch, uploads, false)
    {
      drained, sent := Drain(answers);
      if drained {
        var ok := UploadPendingBackups(uploads);
        assert backupEnabled ==> BackedUp(|old(unsaved)|, |saved| - |old(saved)|, batch, uploads, ok);
      }
    }

    /** Send what is queued until nothing is left or something fails. */
    method Drain(answers: seq<Answer>) returns (drained: bool, sent: nat)
      requires Valid()
      modifies this`outgoing, this`answered
      ensures Valid() && Outcome(|old(outgoing.queue)|, answers, sent, drained)
      ensures Progress(old(outgoing), old(answered), outgoing, answered, answers, sent)
      ensures drained ==> outgoing.queue == []
    {
      sent := 0;
      ProgressStarts(outgoing, answered, answers);
      while true
        invariant Valid()
        invariant sent <= |answers| && Going(|old(outgoing.queue)|, answers, sent)
        invariant Progress(old(outgoing), old(answered), outgoing, answered, answers, sent)
        decreases |answers| - sent
      {
        BacklogIs(old(outgoing), old(answered), outgoing, answered, answers, sent);
        if sent < |answers| && answers[sent].StoreFails? {
          return false, sent;
        }
        var requests := outgoing.queue;
        if requests == [] {
          break;
        }
        ghost var before := sent;
        for i := 0 to |requests|
          invariant sent == before + i
          invariant Valid()
          invariant sent <= |answers| && Going(|old(outgoing.queue)|, answers, sent)
          invariant Progress(old(outgoing), old(answered), outgoing, answered, answers, sent)
          invariant requests[i..] <= outgoing.queue
        {
          IsFirst(requests, i, outgoing.queue);
          BacklogIs(old(outgoing), old(answered), outgoing, answered, answers, sent);
          if sent == |answers| {
            return false, sent;
          }
          SendKeepsProgress(old(outgoing), old(answered), outgoing, answered, answers, sent);
          MarkKeepsRest(requests, i, outgoing, if answers[sent].Accepted? then answers[sent].more else 0);
          var ok := SendAndMark(requests[i], answers[sent]);
          if !ok {
            return false, sent;
          }
          sent := sent + 1;
        }
      }
      drained := true;
    }

    /** Save room keys batch by batch, with these answers and then none. */
    method UploadPendingBackups(uploads: seq<bool>) returns (ok: bool)
      requires Valid()
      modifies this`unsaved, this`saved
      ensures saved + unsaved == old(saved) + old(unsaved) && |saved| >= |old(saved)|
      ensures !backupEnabled ==> ok && unsaved == old(unsaved)
      ensures backupEnabled ==> BackedUp(|old(unsaved)|, |saved| - |old(saved)|, batch, uploads, ok)
    {
      if !backupEnabled {
        return true;
      }
      for n := 0 to MAX_BATCHES
        invariant saved + unsaved == old(saved) + old(unsaved)
        invariant BatchesDone(|old(unsaved)|, |saved| - |old(saved)|, batch, uploads, n)
      {
        assert |saved + unsaved| == |old(saved) + old(unsaved)|;
        if unsaved == [] {
          return true;
        }
        if n == |uploads| || !uploads[n] {
          return false;
        }
        OneMoreBatch(|old(unsaved)|, |saved| - |old(saved)|, batch, uploads, n);
        var size := if batch < |unsaved| then batch else |unsaved|;
        assert unsaved == unsaved[..size] + unsaved[size..];
        saved, unsaved := saved + unsaved[..size], unsaved[size..];
      }
      ok := true;
    }
  }

  /** After so many answers, what was answered and what is queued are together what they
      were, and what the machine made since. */
  ghost predicate Progress(outgoing0: Outgoing, answered0: seq<nat>,
                           outgoing: Outgoing, answered: seq<nat>, answers: seq<Answer>, sent: nat)
    requires sent <= |answers|
  {
    && outgoing.made == outgoing0.made + More(answers[..sent])
    && |answered| == |answered0| + sent
    && answered + outgoing.queue == answered0 + outgoing0.queue + Numbers(outgoing0.made, More(answers[..sent]))
  }

  /** So far each answer was a good one, and there was something left to send. */
  ghost predicate Going(queued: nat, answers: seq<Answer>, sent: nat)
    requires sent <= |answers|
  {
    && AllAccepted(answers[..sent])
    && (forall k :: 0 <= k < sent ==> Backlog(queued, answers, k) > 0)
  }

  lemma ProgressStarts(outgoing: Outgoing, answered: seq<nat>, answers: seq<Answer>)
    ensures Progress(outgoing, answered, outgoing, answered, answers, 0)
  {
    assert answers[..0] == [];
  }

  lemma BacklogIs(outgoing0: Outgoing, answered0: seq<nat>,
                  outgoing: Outgoing, answered: seq<nat>, answers: seq<Answer>, sent: nat)
    requires sent <= |answers| && Progress(outgoing0, answered0, outgoing, answered, answers, sent)
    ensures Backlog(|outgoing0.queue|, answers, sent) == |outgoing.queue|
  {
    assert |answered + outgoing.queue| == |answered0| + |outgoing0.queue| + More(answers[..sent]);
  }

  lemma IsFirst(requests: seq<nat>, i: nat, queue: seq<nat>)
    requires i < |requests| && requests[i..] <= queue
    ensures queue != [] && queue[0] == requests[i]
  {
    assert requests[i..][0] == requests[i];
  }

  lemma MarkKeepsRest(requests: seq<nat>, i: nat, o: Outgoing, more: nat)
    requires o.Valid() && i < |requests| && requests[i..] <= o.queue
    ensures requests[i + 1..] <= Mark(o, requests[i], more).queue
  {
    IsFirst(requests, i, o.queue);
    MarkFirst(o, more);
    assert requests[i + 1..] == requests[i..][1..];
  }

  lemma MoreOneMore(answers: seq<Answer>, k: nat)
    requires k < |answers|
    ensures More(answers[..k + 1]) == More(answers[..k]) + if answers[k].Accepted? then answers[k].more else 0
  {
    assert answers[..k + 1][..k] == answers[..k];
  }

  lemma ShiftOne(done: seq<nat>, queue: seq<nat>, more: seq<nat>)
    requires queue != []
    ensures done + [queue[0]] + (queue[1..] + more) == done + queue + more
  {
  }

  lemma SendKeepsProgress(outgoing0: Outgoing, answered0: seq<nat>,
                          outgoing: Outgoing, answered: seq<nat>, answers: seq<Answer>, sent: nat)
    requires sent < |answers| && outgoing.Valid() && outgoing.queue != []
    requires Progress(outgoing0, answered0, outgoing, answered, answers, sent)
    ensures answers[sent].Accepted? ==>
              Progress(outgoing0, answered0, Mark(outgoing, outgoing.queue[0], answers[sent].more),
                       answered + [outgoing.queue[0]], answers, sent + 1)
  {
    if answers[sent].Accepted? {
      var more, so := answers[sent].more, More(answers[..sent]);
      MoreOneMore(answers, sent);
      MarkFirst(outgoing, more);
      ShiftOne(answered, outgoing.queue, Numbers(outgoing.made, more));
      NumbersConcat(outgoing0.made, so, more);
      assert answered0 + outgoing0.queue + Numbers(outgoing0.made, so) + Numbers(outgoing.made, more)
             == answered0 + outgoing0.queue + (Numbers(outgoing0.made, so) + Numbers(outgoing.made, more));
    }
  }

  lemma NumbersConcat(first: nat, m: nat, n: nat)
    ensures Numbers(first, m + n) == Numbers(first, m) + Numbers(first + m, n)
  {
  }
}
