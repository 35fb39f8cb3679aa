/** De-duplication of to-device events: what the homeserver delivers again, until it is
    acknowledged, is handed to the crypto library once. */
module SeenToDevice {
  import opened Seqs

  const SEEN_TO_DEVICE_CAPACITY: nat := 4096

  /** The key of an event: equal for equal events. */
  type Key = nat

  function Insert(order: seq<Key>, key: Key): seq<Key> {
    if key in order then order else Last(SEEN_TO_DEVICE_CAPACITY, order + [key])
  }

  /** The keys of a batch that are taken for new, in order of delivery. */
  function NewKeys(order: seq<Key>, incoming: seq<Key>): seq<Key> {
    if incoming == [] then []
    else
      var before := incoming[..|incoming| - 1];
      var key := incoming[|incoming| - 1];
      if key in AfterAll(order, before) then NewKeys(order, before) else NewKeys(order, before) + [key]
  }

  function AfterAll(order: seq<Key>, incoming: seq<Key>): seq<Key> {
    if incoming == [] then order
    else Insert(AfterAll(order, incoming[..|incoming| - 1]), incoming[|incoming| - 1])
  }

  /** What is remembered once a batch has been processed, or has failed. */
  function Received(order: seq<Key>, incoming: seq<Key>, ok: bool): seq<Key> {
    if ok then AfterAll(order, incoming)
    else Without(AfterAll(order, incoming), Elems(NewKeys(order, incoming)))
  }

  datatype Stats = Stats(clientSyncs: nat, toDeviceEvents: nat, duplicates: nat, roomKeys: nat)

  class SeenEvents {
    var order: seq<Key>
    var set_: set<Key>
    var stats: Stats

    ghost predicate Valid()
      reads this
    {
      set_ == Elems(order) && NoDup(order) && |order| <= SEEN_TO_DEVICE_CAPACITY
    }

    constructor ()
      ensures Valid() && order == [] && stats == Stats(0, 0, 0, 0)
    {
      order, set_, stats := [], {}, Stats(0, 0, 0, 0);
    }

    /** Tells whether the key is new; a new one comes last and may push out the oldest. */
    method Remember(key: Key) returns (isNew: bool)
      requires Valid()
      modifies this`order, this`set_
      ensures Valid() && order == Insert(old(order), key) && isNew == (key !in old(order))
    {
      assert key in set_ <==> key in order;
      if key in set_ {
        return false;
      }
      NoDupAppend(order, key);
      ElemsConcat(order, [key]);
      set_ := set_ + {key};
      order := order + [key];
      if |order| > SEEN_TO_DEVICE_CAPACITY {
        var oldest := order[0];
        assert order == [oldest] + order[1..];
        ElemsConcat([oldest], order[1..]);
        NoDupParts([oldest], order[1..]);
        order := order[1..];
        set_ := set_ - {oldest};
      }
      return true;
    }

    method Forget(key: Key)
      requires Valid()
      modifies this`order, this`set_
      ensures Valid() && order == Without(old(order), {key})
    {
      WithoutElems(order, {key});
      WithoutNoDup(order, {key});
      if key in set_ {
        set_ := set_ - {key};
        order := Without(order, {key});
      } else {
        WithoutNone(order, {key});
      }
    }

    /** Hand the new events of a response to the crypto library; `result` is its answer, how many
        room keys came out of them, or nothing if it failed. */
    method ReceiveSyncChanges(incoming: seq<Key>, result: Option<nat>) returns (handed: seq<Key>)
      requires Valid()
      modifies this
      ensures Valid() && order == Received(old(order), incoming, result.Some?)
      ensures handed == NewKeys(old(order), incoming) && |handed| <= |incoming|
      ensures stats == if result.None? then old(stats)
                       else Stats(old(stats.clientSyncs) + 1,
                                  old(stats.toDeviceEvents) + |handed|,
                                  old(stats.duplicates) + (|incoming| - |handed|),
                                  old(stats.roomKeys) + result.value)
    {
      handed := [];
      var duplicates := 0;
      for i := 0 to |incoming|
        invariant Valid() && stats == old(stats)
        invariant order == AfterAll(old(order), incoming[..i])
        invariant handed == NewKeys(old(order), incoming[..i])
        invariant duplicates + |handed| == i
      {
        assert incoming[..i + 1][..i] == incoming[..i];
        var isNew := Remember(incoming[i]);
        if isNew {
          handed := handed + [incoming[i]];
        } else {
          duplicates := duplicates + 1;
        }
      }
      assert incoming[..|incoming|] == incoming;
      match result
      case Some(roomKeys) =>
        stats := Stats(stats.clientSyncs + 1, stats.toDeviceEvents + |handed|, stats.duplicates + duplicates,
                       stats.roomKeys + roomKeys);
      case None =>
        // Key by key, the memory loses what the batch added to it.
        ghost var all := order;
        WithoutNone(all, {});
        assert Elems(handed[..0]) == {};
        for i := 0 to |handed|
          invariant Valid() && stats == old(stats)
          invariant order == Without(all, Elems(handed[..i]))
        {
          assert handed[..i + 1] == handed[..i] + [handed[i]];
          ElemsConcat(handed[..i], [handed[i]]);
          assert Elems([handed[i]]) == {handed[i]};
          WithoutTwice(all, Elems(handed[..i]), {handed[i]});
          Forget(handed[i]);
        }
        assert handed[..|handed|] == handed;
    }
  }

  lemma {:induction false} WithoutTwice(s: seq<Key>, a: set<Key>, b: set<Key>)
    ensures Without(Without(s, a), b) == Without(s, a + b)
  {
    if s == [] {
    } else {
      var t, x := s[..|s| - 1], s[|s| - 1];
      WithoutTwice(t, a, b);
      var w := Without(t, a);
      assert (w + [x])[..|w|] == w;
    }
  }

  // ----- Memory of one batch

  ghost predicate Remembers(order: seq<Key>) {
    NoDup(order) && |order| <= SEEN_TO_DEVICE_CAPACITY
  }

  lemma LastNoDup(n: nat, s: seq<Key>)
    requires NoDup(s)
    ensures NoDup(Last(n, s))
  {
    if |s| > n {
      assert s == s[..|s| - n] + s[|s| - n..];
      NoDupParts(s[..|s| - n], s[|s| - n..]);
    }
  }

  /** Inserting keeps the newest keys, each once. */
  lemma {:induction false} AfterAllIsLast(order: seq<Key>, incoming: seq<Key>)
    requires Remembers(order)
    ensures AfterAll(order, incoming) == Last(SEEN_TO_DEVICE_CAPACITY, order + NewKeys(order, incoming))
    ensures Remembers(AfterAll(order, incoming))
  {
    if incoming == [] {
      assert order + [] == order;
    } else {
      var before, key := incoming[..|incoming| - 1], incoming[|incoming| - 1];
      AfterAllIsLast(order, before);
      var order1 := AfterAll(order, before);
      if key !in order1 {
        NoDupAppend(order1, key);
        LastNoDup(SEEN_TO_DEVICE_CAPACITY, order1 + [key]);
        LastOfLast(SEEN_TO_DEVICE_CAPACITY, order + NewKeys(order, before), [key]);
        assert order + NewKeys(order, before) + [key] == order + NewKeys(order, incoming);
      }
    }
  }

  /** How much of the earlier memory outlives a batch of n new keys. */
  function Kept(order: seq<Key>, n: nat): nat {
    if n >= SEEN_TO_DEVICE_CAPACITY then 0
    else if |order| <= SEEN_TO_DEVICE_CAPACITY - n then |order|
    else SEEN_TO_DEVICE_CAPACITY - n
  }

  /** After a batch, memory is what is kept of it and the newest of the batch. */
  lemma AfterBatchSplits(order: seq<Key>, news: seq<Key>)
    requires |order| <= SEEN_TO_DEVICE_CAPACITY
    ensures Last(SEEN_TO_DEVICE_CAPACITY, order + news)
            == Last(Kept(order, |news|), order) + Last(SEEN_TO_DEVICE_CAPACITY, news)
  {
  }

  lemma ForgetTail(kept: seq<Key>, tail: seq<Key>, news: seq<Key>)
    requires NoDup(kept + tail) && Elems(tail) <= Elems(news) && (kept == [] || tail == news)
    ensures Without(kept + tail, Elems(news)) == kept
  {
    NoDupParts(kept, tail);
    WithoutConcat(kept, tail, Elems(news));
    WithoutAll(tail, Elems(news));
    if kept != [] {
      WithoutNone(kept, Elems(news));
    }
    assert kept + [] == kept;
  }

  lemma LastElems(n: nat, s: seq<Key>)
    ensures Elems(Last(n, s)) <= Elems(s)
  {
  }

  /** A failed batch leaves a suffix of what was remembered before it and none of its new
      keys, however large it was; the suffix is short only by what the batch pushed out. */
  lemma RollbackForgetsBatch(order: seq<Key>, incoming: seq<Key>)
    requires Remembers(order)
    ensures var after := Received(order, incoming, false);
            var handed := NewKeys(order, incoming);
            && after == Last(Kept(order, |handed|), order)
            && (forall key :: key in handed ==> key !in after)
            && Remembers(after)
  {
    var handed := NewKeys(order, incoming);
    AfterAllIsLast(order, incoming);
    AfterBatchSplits(order, handed);
    LastElems(SEEN_TO_DEVICE_CAPACITY, handed);
    ForgetTail(Last(Kept(order, |handed|), order), Last(SEEN_TO_DEVICE_CAPACITY, handed), handed);
    LastNoDup(Kept(order, |handed|), order);
    WithoutElems(AfterAll(order, incoming), Elems(handed));
    forall key | key in handed
      ensures key !in Received(order, incoming, false)
    {
      assert key in Elems(handed);
      assert key !in Elems(Received(order, incoming, false));
    }
  }

  // ----- Runs of batches

  datatype Batch = Batch(incoming: seq<Key>, ok: bool)

  /** One hand-over of an event to the crypto library, and whether its batch succeeded. */
  datatype Handover = Handover(key: Key, ok: bool)

  function Tag(keys: seq<Key>, ok: bool): seq<Handover> {
    seq(|keys|, i requires 0 <= i < |keys| => Handover(keys[i], ok))
  }

  /** What is remembered, and every hand-over so far. */
  datatype State = State(order: seq<Key>, log: seq<Handover>)

  function Next(s: State, b: Batch): State {
    State(Received(s.order, b.incoming, b.ok), s.log + Tag(NewKeys(s.order, b.incoming), b.ok))
  }

  function Run(batches: seq<Batch>): State {
    if batches == [] then State([], [])
    else Next(Run(batches[..|batches| - 1]), batches[|batches| - 1])
  }

  /** The keys handed over in successful batches. */
  function OkKeys(log: seq<Handover>): seq<Key> {
    if log == [] then []
    else
      var h := log[|log| - 1];
      OkKeys(log[..|log| - 1]) + if h.ok then [h.key] else []
  }

  lemma {:induction false} OkKeysConcat(a: seq<Handover>, b: seq<Handover>)
    ensures OkKeys(a + b) == OkKeys(a) + OkKeys(b)
  {
    if b == [] {
      assert a + b == a;
    } else {
      OkKeysConcat(a, b[..|b| - 1]);
      assert (a + b)[..|a + b| - 1] == a + b[..|b| - 1];
    }
  }

  lemma {:induction false} OkKeysOfTag(keys: seq<Key>, ok: bool)
    ensures OkKeys(Tag(keys, ok)) == if ok then keys else []
  {
    if keys == [] {
    } else {
      OkKeysOfTag(keys[..|keys| - 1], ok);
      assert Tag(keys, ok)[..|keys| - 1] == Tag(keys[..|keys| - 1], ok);
    }
  }

  lemma {:induction false} OkKeysShort(log: seq<Handover>)
    ensures |OkKeys(log)| <= |log|
  {
    if log == [] {
    } else {
      OkKeysShort(log[..|log| - 1]);
    }
  }

  /** What is remembered is the newest of the successfully handed-over keys, at least
      all of those among the last SEEN_TO_DEVICE_CAPACITY hand-overs. */
  ghost predicate Inv(s: State) {
    && Remembers(s.order)
    && IsSuffix(s.order, OkKeys(s.log))
    && |OkKeys(Last(SEEN_TO_DEVICE_CAPACITY, s.log))| <= |s.order|
  }

  /** In a sequence, a suffix of a suffix holds no more successes. */
  lemma OkKeysMonotone(log: seq<Handover>, n: nat, m: nat)
    requires n <= m
    ensures |OkKeys(Last(n, log))| <= |OkKeys(Last(m, log))|
    ensures |OkKeys(Last(n, log))| <= n
  {
    var a, b := Last(n, log), Last(m, log);
    var d := |b| - |a|;
    assert b == b[..d] + a;
    OkKeysConcat(b[..d], a);
    OkKeysShort(a);
  }

  /** Of the successes in a log, those of its newest part are the newest. */
  lemma OkKeysSuffix(log: seq<Handover>, n: nat)
    ensures IsSuffix(OkKeys(Last(n, log)), OkKeys(log))
  {
    var a := Last(n, log);
    assert log == log[..|log| - |a|] + a;
    OkKeysConcat(log[..|log| - |a|], a);
  }

  lemma LastOfAppend<T>(n: nat, a: seq<T>, b: seq<T>)
    ensures Last(n, a + b) == if |b| >= n then Last(n, b) else Last(n - |b|, a) + b
  {
  }

  /** The successes among the last SEEN_TO_DEVICE_CAPACITY hand-overs fit into what is
      remembered after a batch of `news`. */
  lemma WindowFits(s: State, news: seq<Key>, ok: bool)
    requires Inv(s)
    ensures var window := Last(SEEN_TO_DEVICE_CAPACITY, s.log + Tag(news, ok));
            && |OkKeys(window)| <= SEEN_TO_DEVICE_CAPACITY
            && |OkKeys(window)| <= if ok then |s.order| + |news| else Kept(s.order, |news|)
  {
    var tag, n := Tag(news, ok), |news|;
    LastOfAppend(SEEN_TO_DEVICE_CAPACITY, s.log, tag);
    OkKeysShort(Last(SEEN_TO_DEVICE_CAPACITY, s.log + tag));
    if n >= SEEN_TO_DEVICE_CAPACITY {
      var newest := Last(SEEN_TO_DEVICE_CAPACITY, news);
      assert Last(SEEN_TO_DEVICE_CAPACITY, tag) == Tag(newest, ok);
      OkKeysOfTag(newest, ok);
    } else {
      OkKeysConcat(Last(SEEN_TO_DEVICE_CAPACITY - n, s.log), tag);
      OkKeysOfTag(news, ok);
      OkKeysMonotone(s.log, SEEN_TO_DEVICE_CAPACITY - n, SEEN_TO_DEVICE_CAPACITY);
    }
  }

  lemma LastIsSuffix<T>(n: nat, a: seq<T>, b: seq<T>)
    requires IsSuffix(a, b)
    ensures IsSuffix(Last(n, a), b)
  {
  }

  lemma AppendIsSuffix<T>(a: seq<T>, b: seq<T>, c: seq<T>)
    requires IsSuffix(a, b)
    ensures IsSuffix(a + c, b + c)
  {
  }

  lemma StepKeepsInv(s: State, b: Batch)
    requires Inv(s)
    ensures Inv(Next(s, b))
  {
    var news := NewKeys(s.order, b.incoming);
    OkKeysConcat(s.log, Tag(news, b.ok));
    OkKeysOfTag(news, b.ok);
    WindowFits(s, news, b.ok);
    if b.ok {
      AfterAllIsLast(s.order, b.incoming);
      AppendIsSuffix(s.order, OkKeys(s.log), news);
      LastIsSuffix(SEEN_TO_DEVICE_CAPACITY, s.order + news, OkKeys(s.log) + news);
    } else {
      RollbackForgetsBatch(s.order, b.incoming);
      assert OkKeys(s.log) + [] == OkKeys(s.log);
      LastIsSuffix(Kept(s.order, |news|), s.order, OkKeys(s.log));
    }
  }

  lemma {:induction false} RunsKeepInv(batches: seq<Batch>)
    ensures Inv(Run(batches))
  {
    if batches == [] {
      assert Last<Handover>(SEEN_TO_DEVICE_CAPACITY, []) == [];
    } else {
      RunsKeepInv(batches[..|batches| - 1]);
      StepKeepsInv(Run(batches[..|batches| - 1]), batches[|batches| - 1]);
    }
  }

  lemma FirstSuccess(rest: seq<Handover>)
    requires rest != [] && rest[0].ok
    ensures OkKeys(rest) != [] && OkKeys(rest)[0] == rest[0].key
  {
    assert rest == [rest[0]] + rest[1..];
    OkKeysConcat([rest[0]], rest[1..]);
    assert [rest[0]][..0] == [];
    assert OkKeys([rest[0]]) == [rest[0].key];
  }

  lemma SuffixesNest<T>(a: seq<T>, b: seq<T>, all: seq<T>)
    requires IsSuffix(a, all) && IsSuffix(b, all) && |a| <= |b|
    ensures Last(|a|, b) == a
  {
  }

  /** Every success among the last SEEN_TO_DEVICE_CAPACITY hand-overs is remembered. */
  lemma RecentSuccessRemembered(s: State, p: nat)
    requires Inv(s) && p < |s.log| && s.log[p].ok && |s.log| - p <= SEEN_TO_DEVICE_CAPACITY
    ensures |OkKeys(s.log[p..])| <= |s.order| && s.log[p].key in Last(|OkKeys(s.log[p..])|, s.order)
  {
    var n := |s.log| - p;
    assert s.log[p..] == Last(n, s.log);
    OkKeysMonotone(s.log, n, SEEN_TO_DEVICE_CAPACITY);
    OkKeysSuffix(s.log, n);
    FirstSuccess(s.log[p..]);
    SuffixesNest(OkKeys(s.log[p..]), s.order, OkKeys(s.log));
  }

  /** No key handed over in a successful batch is handed over again, in whatever batch,
      before SEEN_TO_DEVICE_CAPACITY further hand-overs. */
  ghost predicate OnceWithinCapacity(log: seq<Handover>) {
    forall p, q :: 0 <= p < q < |log| && log[p].ok && log[p].key == log[q].key ==>
      q - p > SEEN_TO_DEVICE_CAPACITY
  }

  /** A key taken for new is not among those remembered at its turn. */
  lemma {:induction false} NewKeyIsAbsent(order: seq<Key>, incoming: seq<Key>, j: nat)
    requires Remembers(order) && j < |NewKeys(order, incoming)|
    ensures NewKeys(order, incoming)[j]
            !in Last(SEEN_TO_DEVICE_CAPACITY, order + NewKeys(order, incoming)[..j])
  {
    var before := incoming[..|incoming| - 1];
    if j < |NewKeys(order, before)| {
      NewKeyIsAbsent(order, before, j);
      assert NewKeys(order, incoming)[..j] == NewKeys(order, before)[..j];
    } else {
      AfterAllIsLast(order, before);
      assert NewKeys(order, incoming)[..j] == NewKeys(order, before);
    }
  }

  /** A recent success, and an earlier key of the batch, are among those remembered when
      the batch's j-th new key has its turn. */
  lemma RecentIsKnown(s: State, b: Batch, p: nat, j: nat)
    requires Inv(s) && j < |NewKeys(s.order, b.incoming)| && p < |s.log| + j
    requires Next(s, b).log[p].ok && |s.log| + j - p <= SEEN_TO_DEVICE_CAPACITY
    ensures Next(s, b).log[p].key in Last(SEEN_TO_DEVICE_CAPACITY, s.order + NewKeys(s.order, b.incoming)[..j])
  {
    var earlier := NewKeys(s.order, b.incoming)[..j];
    if p < |s.log| {
      RecentSuccessRemembered(s, p);
      var n := |OkKeys(s.log[p..])|;
      OkKeysShort(s.log[p..]);
      LastOfAppend(SEEN_TO_DEVICE_CAPACITY, s.order, earlier);
      LastGrows(n, SEEN_TO_DEVICE_CAPACITY - j, s.order, s.log[p].key);
    } else {
      var known := s.order + earlier;
      assert known[|s.order| + (p - |s.log|)] == Next(s, b).log[p].key;
      var recent := Last(SEEN_TO_DEVICE_CAPACITY, known);
      assert recent[|recent| - (|s.log| + j - p)] == Next(s, b).log[p].key;
    }
  }

  lemma LastGrows<T>(n: nat, m: nat, s: seq<T>, x: T)
    requires n <= m && x in Last(n, s)
    ensures x in Last(m, s)
  {
    var i :| 0 <= i < |Last(n, s)| && Last(n, s)[i] == x;
    assert Last(m, s)[|Last(m, s)| - |Last(n, s)| + i] == x;
  }

  /** A key that was a recent success, or came earlier in the batch, is not new. */
  lemma StepKeepsOnce(s: State, b: Batch)
    requires Inv(s) && OnceWithinCapacity(s.log)
    ensures OnceWithinCapacity(Next(s, b).log)
  {
    var log := Next(s, b).log;
    forall p, q | 0 <= p < q < |log| && log[p].ok && log[p].key == log[q].key
      ensures q - p > SEEN_TO_DEVICE_CAPACITY
    {
      if q < |s.log| {
        assert s.log[p] == log[p] && s.log[q] == log[q];
      } else {
        NewKeyIsAbsent(s.order, b.incoming, q - |s.log|);
        if q - p <= SEEN_TO_DEVICE_CAPACITY {
          RecentIsKnown(s, b, p, q - |s.log|);
        }
      }
    }
  }

  /** In every run of deliveries, repeats and failures, an event handed over in a
      successful batch is not handed over again while fewer than SEEN_TO_DEVICE_CAPACITY
      others have been handed over since; the memory is free of repeats and bounded. */
  lemma {:induction false} HandedOverOnce(batches: seq<Batch>)
    ensures OnceWithinCapacity(Run(batches).log) && Remembers(Run(batches).order)
  {
    if batches == [] {
    } else {
      HandedOverOnce(batches[..|batches| - 1]);
      RunsKeepInv(batches[..|batches| - 1]);
      StepKeepsOnce(Run(batches[..|batches| - 1]), batches[|batches| - 1]);
    }
    RunsKeepInv(batches);
  }

  /** Where no batch fails, the memory is the newest of all hand-overs. */
  lemma {:induction false} WithoutFailuresNewest(batches: seq<Batch>)
    requires forall b :: b in batches ==> b.ok
    ensures Run(batches).order == Last(SEEN_TO_DEVICE_CAPACITY, OkKeys(Run(batches).log))
    ensures |OkKeys(Run(batches).log)| == |Run(batches).log|
  {
    if batches == [] {
    } else {
      var before, b := batches[..|batches| - 1], batches[|batches| - 1];
      assert b.ok && forall x :: x in before ==> x in batches;
      WithoutFailuresNewest(before);
      RunsKeepInv(before);
      var s := Run(before);
      AfterAllIsLast(s.order, b.incoming);
      var news := NewKeys(s.order, b.incoming);
      OkKeysConcat(s.log, Tag(news, true));
      OkKeysOfTag(news, true);
      LastOfLast(SEEN_TO_DEVICE_CAPACITY, OkKeys(s.log), news);
    }
  }

  // ----- After a failure

  lemma {:induction false} AbsentStaysAbsent(order: seq<Key>, incoming: seq<Key>, key: Key)
    requires Remembers(order) && key !in order && key !in incoming
    ensures key !in AfterAll(order, incoming) && key !in Received(order, incoming, false)
  {
    if incoming == [] {
    } else {
      assert forall x :: x in incoming[..|incoming| - 1] ==> x in incoming;
      AbsentStaysAbsent(order, incoming[..|incoming| - 1], key);
    }
    WithoutElems(AfterAll(order, incoming), Elems(NewKeys(order, incoming)));
    assert key !in Elems(AfterAll(order, incoming));
    assert key !in Elems(Received(order, incoming, false));
  }

  /** A key that is not remembered is new wherever it is delivered. */
  lemma {:induction false} AbsentIsNew(order: seq<Key>, incoming: seq<Key>, key: Key)
    requires Remembers(order) && key !in order && key in incoming
    ensures key in NewKeys(order, incoming)
  {
    var before := incoming[..|incoming| - 1];
    if key in before {
      AbsentIsNew(order, before, key);
    } else {
      AbsentStaysAbsent(order, before, key);
      assert incoming == before + [incoming[|incoming| - 1]];
    }
  }

  function Through(s: State, batches: seq<Batch>): State {
    if batches == [] then s else Next(Through(s, batches[..|batches| - 1]), batches[|batches| - 1])
  }

  /** An event whose batch failed is let through on its next delivery, whatever is
      delivered in between. */
  lemma {:induction false} FailedIsLetThrough(s: State, failed: seq<Key>, between: seq<Batch>, next: seq<Key>, key: Key)
    requires Inv(s) && key in NewKeys(s.order, failed) && key in next
    requires forall b :: b in between ==> key !in b.incoming
    ensures key in NewKeys(Through(Next(s, Batch(failed, false)), between).order, next)
  {
    RollbackForgetsBatch(s.order, failed);
    StepKeepsInv(s, Batch(failed, false));
    StaysForgotten(Next(s, Batch(failed, false)), between, key);
    AbsentIsNew(Through(Next(s, Batch(failed, false)), between).order, next, key);
  }

  lemma {:induction false} StaysForgotten(s: State, between: seq<Batch>, key: Key)
    requires Inv(s) && key !in s.order && forall b :: b in between ==> key !in b.incoming
    ensures key !in Through(s, between).order && Inv(Through(s, between))
  {
    if between == [] {
    } else {
      var before, b := between[..|between| - 1], between[|between| - 1];
      assert b in between && forall x :: x in before ==> x in between;
      StaysForgotten(s, before, key);
      StepKeepsInv(Through(s, before), b);
      AbsentStaysAbsent(Through(s, before).order, b.incoming, key);
    }
  }
}
