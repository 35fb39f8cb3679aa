/** Can two identity keys ever be published for one device? Which sessions are admitted, and
    what that leads to over all runs of logins, restores, sign-outs, deleted stores and
    restarts. */
module Identity {
  import opened Seqs

  type User = string
  type Device = string
  type Key = nat
  type Token = nat

  datatype Slot = Slot(user: User, device: Device)

  // ----- Admitting a session

  /** What a look at the homeserver told of a device's published key: that key, that there is
      none, or nothing. */
  datatype Published = Known(key: Option<Key>) | Unknown

  datatype Verdict = Opens(key: Key, republish: bool) | Conflict | Unchecked

  /** `store` is the key of the device's store, if it has one; `brand` that of a new store. */
  function Decide(store: Option<Key>, published: Published, brand: Key): Verdict {
    match store
    case None =>
      (match published
       case Known(None) => Opens(brand, false)
       case Known(Some(_)) => Conflict
       case Unknown => Unchecked)
    case Some(key) =>
      (match published
       case Known(Some(other)) => if other != key then Conflict else Opens(key, false)
       case Known(None) => Opens(key, true)
       case Unknown => Opens(key, false))
  }

  /** A session opens with the store's own keys or, only where the homeserver is known to
      publish none, with new ones; it is refused exactly over keys known to differ,
      and a store's keys go out once more exactly if a look found none published. */
  lemma DecideIsCautious(store: Option<Key>, published: Published, brand: Key)
    ensures var v := Decide(store, published, brand);
            && (v.Opens? ==> if store.Some? then v.key == store.value else v.key == brand && published == Known(None))
            && (v.Conflict? <==> published.Known? && published.key.Some? && store != published.key)
            && (v.Unchecked? <==> store.None? && published.Unknown?)
            && (v.Opens? && v.republish <==> store.Some? && published == Known(None))
  {
  }

  datatype Context = Context(token: Token, slot: Slot, key: Key)

  datatype DeviceConflict = DeviceConflict(slot: Slot, hasStore: bool)

  datatype Outcome = Session(ctx: Context, republish: bool) | Refused(conflict: DeviceConflict) | NotYet | Failed

  /** What admitting a session comes to, and the sessions then served. */
  function Admit(sessions: map<Token, Context>, token: Token, slot: Slot, published: Published,
                 store: Option<Key>, brand: Key, opens: bool, media: bool): (Outcome, map<Token, Context>)
  {
    if token in sessions then (Session(sessions[token], false), sessions)
    else
      match Decide(store, published, brand)
      case Conflict =>
        (if store.None? || opens then Refused(DeviceConflict(slot, store.Some?)) else Failed, sessions)
      case Unchecked => (NotYet, sessions)
      case Opens(key, republish) =>
        var ctx := Context(token, slot, key);
        if opens && media then (Session(ctx, republish), sessions[token := ctx]) else (Failed, sessions)
  }

  /** A token whose session was removed is admitted as if it had never had one, by what
      its store and the homeserver say now; every other token keeps its session. */
  lemma RemovedIsAdmittedAnew(sessions: map<Token, Context>, removed: Token, token: Token, slot: Slot,
                              published: Published, store: Option<Key>, brand: Key, opens: bool, media: bool)
    ensures var now := Admit(sessions - {removed}, token, slot, published, store, brand, opens, media);
            if token == removed then
              && now.0 == Admit(map[], token, slot, published, store, brand, opens, media).0
              && (now.0.Session? ==> now.1 == sessions[token := Context(token, slot, now.0.ctx.key)])
            else if token in sessions then now == (Session(sessions[token], false), sessions - {removed})
            else now.0 == Admit(sessions, token, slot, published, store, brand, opens, media).0
  {
    if token == removed {
      var ctx := Context(token, slot, if store.Some? then store.value else brand);
      assert (sessions - {removed})[token := ctx] == sessions[token := ctx];
    }
  }

  function Retain(refused: seq<DeviceConflict>, keep: DeviceConflict -> bool): seq<DeviceConflict> {
    if refused == [] then []
    else
      var before := Retain(refused[..|refused| - 1], keep);
      if keep(refused[|refused| - 1]) then before + [refused[|refused| - 1]] else before
  }

  lemma {:induction false} RetainIs(refused: seq<DeviceConflict>, keep: DeviceConflict -> bool)
    ensures forall c :: c in Retain(refused, keep) <==> c in refused && keep(c)
    ensures LatestPerDevice(refused) ==> LatestPerDevice(Retain(refused, keep))
  {
    if refused == [] {
    } else {
      var before, c := refused[..|refused| - 1], refused[|refused| - 1];
      assert refused == before + [c];
      RetainIs(before, keep);
      var kept := Retain(before, keep);
      if LatestPerDevice(refused) {
        assert forall i :: 0 <= i < |before| ==> before[i] == refused[i];
        assert forall d :: d in before ==> d.slot != c.slot;
        assert forall i :: 0 <= i < |kept| ==> kept[i] in kept;
      }
    }
  }

  /** Filtering one part of the list after the other comes to the same: order is kept. */
  lemma {:induction false} RetainKeepsOrder(a: seq<DeviceConflict>, b: seq<DeviceConflict>,
                                            keep: DeviceConflict -> bool)
    ensures Retain(a + b, keep) == Retain(a, keep) + Retain(b, keep)
  {
    if b == [] {
      assert a + b == a;
    } else {
      RetainKeepsOrder(a, b[..|b| - 1], keep);
      assert (a + b)[..|a + b| - 1] == a + b[..|b| - 1];
    }
  }

  function OtherDevices(slot: Slot): DeviceConflict -> bool {
    (c: DeviceConflict) => c.slot != slot
  }

  function OtherUsers(user: User): DeviceConflict -> bool {
    (c: DeviceConflict) => c.slot.user != user
  }

  /** No device is listed twice. */
  ghost predicate LatestPerDevice(refused: seq<DeviceConflict>) {
    forall i, j :: 0 <= i < j < |refused| ==> refused[i].slot != refused[j].slot
  }

  class SessionManager {
    var sessions: map<Token, Context>
    var refused: seq<DeviceConflict>

    constructor ()
      ensures sessions == map[] && refused == []
    {
      sessions, refused := map[], [];
    }

    method Refuse(conflict: DeviceConflict)
      requires LatestPerDevice(refused)
      modifies this`refused
      ensures refused == Retain(old(refused), OtherDevices(conflict.slot)) + [conflict] && LatestPerDevice(refused)
      ensures forall c :: c in refused <==> c == conflict || (c in old(refused) && c.slot != conflict.slot)
      ensures forall c :: c in refused <==> c == conflict || (c in old(refused) && c.slot != conflict.slot)
    {
      var others := Retain(refused, OtherDevices(conflict.slot));
      RetainIs(refused, OtherDevices(conflict.slot));
      assert forall i :: 0 <= i < |others| ==> others[i] in others;
      refused := others + [conflict];
    }

    method Remove(token: Token)
      modifies this`sessions
      ensures sessions == old(sessions) - {token}
    {
      sessions := sessions - {token};
    }

    /** Under the write lock: `published` was asked before it was taken. `opens` and
        `media` say whether the store and the media cache could be opened. */
    method Insert(token: Token, slot: Slot, published: Published, store: Option<Key>, brand: Key,
                  opens: bool, media: bool)
      returns (outcome: Outcome)
      requires LatestPerDevice(refused)
      modifies this
      ensures LatestPerDevice(refused)
      ensures (outcome, sessions) == Admit(old(sessions), token, slot, published, store, brand, opens, media)
      ensures token in old(sessions) ==>
                outcome == Session(old(sessions)[token], false) && sessions == old(sessions) && refused == old(refused)
      ensures token !in old(sessions) ==>
                match Decide(store, published, brand)
                case Conflict =>
                  && outcome == (if store.None? || opens then Refused(DeviceConflict(slot, store.Some?)) else Failed)
                  && sessions == old(sessions)
                  && refused == (if outcome.Refused? then
                                   Retain(old(refused), OtherDevices(slot)) + [DeviceConflict(slot, store.Some?)]
                                 else old(refused))
                case Unchecked => outcome == NotYet && sessions == old(sessions) && refused == old(refused)
                case Opens(key, republish) =>
                  if opens && media then
                    && outcome == Session(Context(token, slot, key), republish)
                    && sessions == old(sessions)[token := Context(token, slot, key)]
                    && refused == Retain(old(refused), OtherUsers(slot.user))
                    && (forall c :: c in refused <==> c in old(refused) && c.slot.user != slot.user)
                  else outcome == Failed && sessions == old(sessions) && refused == old(refused)
    {
      if token in sessions {
        return Session(sessions[token], false);
      }
      if store.None? {
        // The verdicts for a missing store: put off, refused, or on to `brand`.
        if published.Unknown? {
          return NotYet;
        }
        if published.key.Some? {
          var conflict := DeviceConflict(slot, false);
          Refuse(conflict);
          return Refused(conflict);
        }
      }
      if !opens {
        return Failed;
      }
      var key := if store.Some? then store.value else brand;
      var republish := false;
      if store.Some? && published.Known? {
        if published.key.Some? {
          if published.key.value != key {
            var conflict := DeviceConflict(slot, true);
            Refuse(conflict);
            return Refused(conflict);
          }
        } else {
          republish := true;
        }
      }
      if !media {
        return Failed;
      }
      var ctx := Context(token, slot, key);
      sessions := sessions[token := ctx];
      RetainIs(refused, OtherUsers(slot.user));
      refused := Retain(refused, OtherUsers(slot.user));
      return Session(ctx, republish);
    }
  }

  // ----- Runs

  /** A session about to be admitted, with what was found out before taking the lock. */
  datatype Inserting = Inserting(token: Token, slot: Slot, published: Published)

  /** A login on its way to the homeserver, as whomever it turns out to be, with the device
      it asks for: one the proxy chose, or, where the login names no user, whatever the
      client asks for itself. */
  datatype Plan = Plan(user: User, device: Option<Device>)

  datatype World = World(
    // On disk: the identity keys of the stores.
    stores: map<Slot, Key>,
    // At the homeserver: published keys, valid tokens, tokens and device IDs ever given out.
    published: map<Slot, Key>, tokens: map<Token, Slot>, usedTokens: set<Token>, issued: set<Slot>,
    // In the proxy: the session map, contexts whose tasks may still run, and work in flight.
    sessions: map<Token, Context>, live: set<Context>, inserting: map<nat, Inserting>, planned: map<nat, Plan>,
    // Keys made so far, and all that was ever published.
    brand: Key, ever: set<(Slot, Key)>)

  datatype Step =
    | PlansLogin(id: nat, plan: Plan)
    | LogsIn(id: nat, token: Token, issued: Device)
    | LoginFails(id: nat)
    | Looks(id: nat, token: Token, readable: bool)
    | Inserts(id: nat, opens: bool, media: bool)
    | Uploads(ctx: Context)
    | SignsOut(slot: Slot)
    | Evicts(token: Token)
    | Ends(ctx: Context)
    | Deletes(slot: Slot)
    | Restarts

  function Get<K, V>(m: map<K, V>, k: K): Option<V> {
    if k in m then Some(m[k]) else None
  }

  /** The device that a login ends up on. */
  function LoginSlot(plan: Plan, issued: Device): Slot {
    Slot(plan.user, if plan.device.Some? then plan.device.value else issued)
  }

  /** Nothing is under way in the proxy for the device: no live session, no insert. */
  predicate Idle(w: World, slot: Slot) {
    && (forall c :: c in w.live ==> c.slot != slot)
    && (forall i :: i in w.inserting ==> w.inserting[i].slot != slot)
  }

  predicate Enabled(w: World, step: Step) {
    match step
    case PlansLogin(id, _) => id !in w.planned
    case LogsIn(id, token, issued) =>
      && id in w.planned && token !in w.usedTokens
      && (w.planned[id].device.None? ==> LoginSlot(w.planned[id], issued) !in w.issued)
    case LoginFails(id) => id in w.planned
    case Looks(id, token, _) => id !in w.inserting && token in w.tokens
    case Inserts(id, _, _) => id in w.inserting
    case Uploads(ctx) => ctx in w.live && ctx.token in w.tokens
    case SignsOut(_) => true
    case Evicts(token) => token in w.sessions
    case Ends(ctx) => ctx in w.live && ctx.token !in w.sessions
    case Deletes(slot) => Idle(w, slot)
    case Restarts => true
  }

  function Insert(w: World, i: Inserting, opens: bool, media: bool): World {
    var store := Get(w.stores, i.slot);
    var verdict := Decide(store, i.published, w.brand);
    var (outcome, sessions) := Admit(w.sessions, i.token, i.slot, i.published, store, w.brand, opens, media);
    if i.token in w.sessions then w
    else
      // Opening makes the store, whatever comes of the rest.
      var w1 := if !verdict.Opens? || !opens then w
                else w.(stores := w.stores[i.slot := verdict.key],
                        brand := if store.None? then w.brand + 1 else w.brand);
      if outcome.Session? then w1.(sessions := sessions, live := w.live + {outcome.ctx}) else w1
  }

  function Done(w: World, id: nat): World {
    w.(inserting := w.inserting - {id})
  }

  function Next(w: World, step: Step): World
    requires Enabled(w, step)
  {
    match step
    case PlansLogin(id, plan) => w.(planned := w.planned[id := plan])
    case LogsIn(id, token, issued) =>
      var slot := LoginSlot(w.planned[id], issued);
      w.(planned := w.planned - {id}, tokens := w.tokens[token := slot],
         usedTokens := w.usedTokens + {token}, issued := w.issued + {slot})
    case LoginFails(id) => w.(planned := w.planned - {id})
    case Looks(id, token, readable) =>
      var slot := w.tokens[token];
      w.(inserting := w.inserting[id := Inserting(token, slot,
           if readable then Known(Get(w.published, slot)) else Unknown)])
    case Inserts(id, opens, media) => Done(Insert(w, w.inserting[id], opens, media), id)
    case Uploads(ctx) =>
      w.(published := w.published[ctx.slot := ctx.key], ever := w.ever + {(ctx.slot, ctx.key)})
    case SignsOut(slot) =>
      // The homeserver drops the device, with its keys and tokens.
      w.(published := w.published - {slot}, tokens := map t | t in w.tokens && w.tokens[t] != slot :: w.tokens[t])
    case Evicts(token) => w.(sessions := w.sessions - {token})
    case Ends(ctx) => w.(live := w.live - {ctx})
    case Deletes(slot) => w.(stores := w.stores - {slot})
    case Restarts => w.(sessions := map[], live := {}, inserting := map[], planned := map[])
  }

  predicate Possible(w: World, steps: seq<Step>)
    decreases |steps|
  {
    steps == [] || (Enabled(w, steps[0]) && Possible(Next(w, steps[0]), steps[1..]))
  }

  function Run(w: World, steps: seq<Step>): World
    requires Possible(w, steps)
    decreases |steps|
  {
    if steps == [] then w else Run(Next(w, steps[0]), steps[1..])
  }

  predicate Initial(w: World) {
    w == World(map[], map[], map[], {}, {}, map[], {}, map[], map[], 0, {})
  }

  /** Of the proxy's sessions an eviction ends one, as SessionManager.Remove does, and a
      restart all. */
  lemma SessionsEnd(w: World, step: Step, token: Token)
    requires Enabled(w, step) && token in w.sessions && !step.Inserts?
    ensures token in Next(w, step).sessions <==> step != Evicts(token) && step != Restarts
    ensures token in Next(w, step).sessions ==> Next(w, step).sessions[token] == w.sessions[token]
  {
  }

  // ----- What the proxy uploads

  ghost predicate Inv(w: World) {
    // Whoever may upload has the store's own key.
    && (forall c :: c in w.live ==> c.slot in w.stores && w.stores[c.slot] == c.key)
    && (forall t :: t in w.sessions ==> w.sessions[t].token == t && w.sessions[t] in w.live)
    && (forall c :: c in w.live && c.token in w.tokens ==> w.tokens[c.token] == c.slot)
    && (forall i :: i in w.inserting && w.inserting[i].token in w.tokens ==>
          w.tokens[w.inserting[i].token] == w.inserting[i].slot)
    && (forall c :: c in w.live ==> c.token in w.usedTokens)
    && (forall i :: i in w.inserting ==> w.inserting[i].token in w.usedTokens)
    && w.tokens.Keys <= w.usedTokens
    // Store and homeserver agree.
    && (forall s :: s in w.stores && s in w.published ==> w.stores[s] == w.published[s])
    // An insert that found nothing published still would, or has a store by now.
    && (forall i :: i in w.inserting && w.inserting[i].published == Known(None) ==>
          w.inserting[i].slot !in w.published || w.inserting[i].slot in w.stores)
    && (forall s :: s in w.stores ==> w.stores[s] < w.brand)
    && (forall e :: e in w.ever ==> e.1 < w.brand)
  }

  /** A new store, made where the homeserver publishes nothing. */
  lemma NewStoreKeepsInv(w: World, slot: Slot)
    requires Inv(w) && slot !in w.stores && slot !in w.published
    ensures Inv(w.(stores := w.stores[slot := w.brand], brand := w.brand + 1))
  {
    var w' := w.(stores := w.stores[slot := w.brand], brand := w.brand + 1);
    assert forall s :: s in w'.stores ==> s in w.stores || s == slot;
  }

  /** A session opened on an existing store. */
  lemma NewSessionKeepsInv(w: World, i: Inserting)
    requires Inv(w) && i.slot in w.stores && i.token in w.usedTokens
    requires i.token in w.tokens ==> w.tokens[i.token] == i.slot
    ensures var ctx := Context(i.token, i.slot, w.stores[i.slot]);
            Inv(w.(sessions := w.sessions[i.token := ctx], live := w.live + {ctx}))
  {
  }

  lemma DoneInsertKeepsInv(w: World, id: nat)
    requires Inv(w)
    ensures Inv(Done(w, id))
  {
  }

  /** The world with a store for the device. */
  function Stocked(w: World, slot: Slot): World {
    if slot in w.stores then w else w.(stores := w.stores[slot := w.brand], brand := w.brand + 1)
  }

  function Served(w: World, i: Inserting): World
    requires i.slot in w.stores
  {
    var ctx := Context(i.token, i.slot, w.stores[i.slot]);
    w.(sessions := w.sessions[i.token := ctx], live := w.live + {ctx})
  }

  /** What admitting a session comes to: nothing, a store, or a session on the store. */
  lemma InsertIs(w: World, i: Inserting, opens: bool, media: bool)
    ensures Insert(w, i, opens, media) ==
            if i.token in w.sessions || !Decide(Get(w.stores, i.slot), i.published, w.brand).Opens? || !opens then w
            else if media then Served(Stocked(w, i.slot), i)
            else Stocked(w, i.slot)
  {
    if i.slot in w.stores {
      assert w.stores[i.slot := w.stores[i.slot]] == w.stores;
    }
  }

  lemma StockKeepsInv(w: World, slot: Slot)
    requires Inv(w) && (slot in w.stores || slot !in w.published)
    ensures Inv(Stocked(w, slot)) && slot in Stocked(w, slot).stores
  {
    if slot !in w.stores {
      NewStoreKeepsInv(w, slot);
    }
  }

  /** What an insert may rely on under the lock. */
  lemma InsertingFacts(w: World, id: nat)
    requires Inv(w) && id in w.inserting
    ensures var i := w.inserting[id];
            && i.token in w.usedTokens
            && (i.token in w.tokens ==> w.tokens[i.token] == i.slot)
            && (i.published == Known(None) ==> i.slot in w.stores || i.slot !in w.published)
  {
  }

  lemma AdmissionKeepsInv(w: World, i: Inserting, opens: bool, media: bool)
    requires Inv(w) && i.token in w.usedTokens && (i.token in w.tokens ==> w.tokens[i.token] == i.slot)
    requires i.published == Known(None) ==> i.slot in w.stores || i.slot !in w.published
    ensures Inv(Insert(w, i, opens, media))
  {
    InsertIs(w, i, opens, media);
    var w1 := Insert(w, i, opens, media);
    if w1 != w {
      assert i.slot in w.stores || i.published == Known(None);
      StockKeepsInv(w, i.slot);
      if w1 != Stocked(w, i.slot) {
        NewSessionKeepsInv(Stocked(w, i.slot), i);
      }
    }
  }

  lemma InsertKeepsInv(w: World, id: nat, opens: bool, media: bool)
    requires Inv(w) && id in w.inserting
    ensures Inv(Next(w, Inserts(id, opens, media)))
  {
    InsertingFacts(w, id);
    AdmissionKeepsInv(w, w.inserting[id], opens, media);
    DoneInsertKeepsInv(Insert(w, w.inserting[id], opens, media), id);
  }

  lemma LoginKeepsInv(w: World, id: nat, token: Token, issued: Device)
    requires Inv(w) && Enabled(w, LogsIn(id, token, issued))
    ensures Inv(Next(w, LogsIn(id, token, issued)))
  {
  }

  lemma SignOutKeepsInv(w: World, slot: Slot)
    requires Inv(w)
    ensures Inv(Next(w, SignsOut(slot)))
  {
  }

  lemma DeleteKeepsInv(w: World, slot: Slot)
    requires Inv(w) && Enabled(w, Deletes(slot))
    ensures Inv(Next(w, Deletes(slot)))
  {
  }

  lemma UploadKeepsInv(w: World, ctx: Context)
    requires Inv(w) && Enabled(w, Uploads(ctx))
    ensures Inv(Next(w, Uploads(ctx)))
  {
  }

  lemma StepKeepsInv(w: World, step: Step)
    requires Inv(w) && Enabled(w, step)
    ensures Inv(Next(w, step))
  {
    match step
    case LogsIn(id, token, issued) => LoginKeepsInv(w, id, token, issued);
    case Inserts(id, opens, media) => InsertKeepsInv(w, id, opens, media);
    case Uploads(ctx) => UploadKeepsInv(w, ctx);
    case SignsOut(slot) => SignOutKeepsInv(w, slot);
    case Deletes(slot) => DeleteKeepsInv(w, slot);
    case _ =>
  }

  /** In every run, an upload goes to a device for which the homeserver publishes nothing
      or the very same key. */
  lemma {:induction false} UploadsReplaceNoKey(w: World, steps: seq<Step>, ctx: Context)
    requires Inv(w) && Possible(w, steps) && Enabled(Run(w, steps), Uploads(ctx))
    ensures var w' := Run(w, steps);
            && (ctx.slot !in w'.published || w'.published[ctx.slot] == ctx.key)
            && w'.tokens[ctx.token] == ctx.slot
    decreases |steps|
  {
    if steps == [] {
    } else {
      StepKeepsInv(w, steps[0]);
      UploadsReplaceNoKey(Next(w, steps[0]), steps[1..], ctx);
    }
  }

  // ----- One key for each device

  predicate OneKey(w: World) {
    forall e, f :: e in w.ever && f in w.ever && e.0 == f.0 ==> e.1 == f.1
  }

  predicate EverPublished(w: World, slot: Slot) {
    exists e :: e in w.ever && e.0 == slot
  }

  /** Deleting a store is careful if the homeserver has not lost the keys of a device
      that still has a valid token. */
  predicate Careful(w: World, slot: Slot) {
    slot in w.tokens.Values && EverPublished(w, slot) ==> slot in w.published || slot !in w.stores
  }

  /** A login lands on its device with care if the device was never published, still is,
      or has its store. */
  predicate CarefulLogin(w: World, slot: Slot) {
    EverPublished(w, slot) ==> slot in w.published || slot in w.stores
  }

  predicate CarefulStep(w: World, step: Step)
    requires Enabled(w, step)
  {
    match step
    case Deletes(slot) => Careful(w, slot)
    case LogsIn(id, _, issued) => CarefulLogin(w, LoginSlot(w.planned[id], issued))
    case _ => true
  }

  predicate CarefulRun(w: World, steps: seq<Step>)
    requires Possible(w, steps)
    decreases |steps|
  {
    steps == []
    || (&& CarefulStep(w, steps[0])
        && CarefulRun(Next(w, steps[0]), steps[1..]))
  }

  /** A device that was ever published has its store, or can get no other. */
  ghost predicate Settled(w: World) {
    && OneKey(w)
    && (forall e :: e in w.ever && e.0 in w.stores ==> w.stores[e.0] == e.1)
    && (forall e, i :: e in w.ever && e.0 !in w.stores && i in w.inserting && w.inserting[i].slot == e.0 ==>
          w.inserting[i].published != Known(None))
    && (forall e, t :: e in w.ever && e.0 !in w.stores && t in w.tokens && w.tokens[t] == e.0 ==> e.0 in w.published)
    && (forall e :: e in w.ever ==> e.0 in w.issued)
    && (forall t :: t in w.tokens ==> w.tokens[t] in w.issued)
  }

  /** A store for a device that was never published. */
  lemma StockKeepsSettled(w: World, slot: Slot)
    requires Settled(w) && slot !in w.stores && !EverPublished(w, slot)
    ensures Settled(Stocked(w, slot))
  {
    assert forall e :: e in w.ever ==> e.0 != slot;
  }

  lemma AdmissionKeepsSettled(w: World, i: Inserting, opens: bool, media: bool) returns (w0: World)
    requires Settled(w)
    requires forall e :: e in w.ever && e.0 !in w.stores && e.0 == i.slot ==> i.published != Known(None)
    ensures var w1 := Insert(w, i, opens, media);
            Settled(w0) && w1 == w0.(sessions := w1.sessions, live := w1.live)
  {
    InsertIs(w, i, opens, media);
    DecideIsCautious(Get(w.stores, i.slot), i.published, w.brand);
    var w1 := Insert(w, i, opens, media);
    if i.token in w.sessions || !Decide(Get(w.stores, i.slot), i.published, w.brand).Opens? || !opens
       || i.slot in w.stores {
      w0 := w;
    } else {
      assert forall e :: e in w.ever ==> e.0 != i.slot;
      StockKeepsSettled(w, i.slot);
      w0 := Stocked(w, i.slot);
    }
  }

  lemma InsertKeepsSettled(w: World, id: nat, opens: bool, media: bool)
    requires Settled(w) && id in w.inserting
    ensures Settled(Next(w, Inserts(id, opens, media)))
  {
    LookedFirst(w, id);
    var w0 := AdmissionKeepsSettled(w, w.inserting[id], opens, media);
    SessionsDoNotUnsettle(w0, Insert(w, w.inserting[id], opens, media), id);
  }

  /** An insert for a device that was published, and has lost its store, saw its key. */
  lemma LookedFirst(w: World, id: nat)
    requires Settled(w) && id in w.inserting
    ensures forall e :: e in w.ever && e.0 !in w.stores && e.0 == w.inserting[id].slot ==>
              w.inserting[id].published != Known(None)
  {
  }

  lemma SessionsDoNotUnsettle(w: World, w': World, id: nat)
    requires Settled(w) && w' == w.(sessions := w'.sessions, live := w'.live)
    ensures Settled(Done(w', id))
  {
  }

  lemma LoginKeepsSettled(w: World, id: nat, token: Token, issued: Device)
    requires Inv(w) && Settled(w) && Enabled(w, LogsIn(id, token, issued))
    requires CarefulLogin(w, LoginSlot(w.planned[id], issued))
    ensures Settled(Next(w, LogsIn(id, token, issued)))
  {
    var slot := LoginSlot(w.planned[id], issued);
    assert forall e :: e in w.ever && e.0 == slot ==> EverPublished(w, slot);
  }

  /** A login without a device of its own, or on one that has its store, is careful. */
  lemma ChosenLoginIsCareful(w: World, id: nat, token: Token, issued: Device)
    requires Settled(w) && Enabled(w, LogsIn(id, token, issued))
    requires var plan := w.planned[id];
             plan.device.Some? ==> Slot(plan.user, plan.device.value) in w.stores
    ensures CarefulLogin(w, LoginSlot(w.planned[id], issued))
  {
    var slot := LoginSlot(w.planned[id], issued);
    if EverPublished(w, slot) {
      var e :| e in w.ever && e.0 == slot;
      assert e.0 in w.issued;
    }
  }

  lemma UploadKeepsSettled(w: World, ctx: Context)
    requires Inv(w) && Settled(w) && Enabled(w, Uploads(ctx))
    ensures Settled(Next(w, Uploads(ctx)))
  {
    var w' := Next(w, Uploads(ctx));
    assert w.tokens[ctx.token] == ctx.slot;
    assert forall e :: e in w'.ever <==> e in w.ever || e == (ctx.slot, ctx.key);
  }

  lemma DeleteKeepsSettled(w: World, slot: Slot)
    requires Inv(w) && Settled(w) && Enabled(w, Deletes(slot)) && Careful(w, slot)
    ensures Settled(Next(w, Deletes(slot)))
  {
    assert forall t :: t in w.tokens && w.tokens[t] == slot ==> slot in w.tokens.Values;
    assert forall e :: e in w.ever && e.0 == slot ==> EverPublished(w, slot);
  }

  lemma StepKeepsSettled(w: World, step: Step)
    requires Inv(w) && Settled(w) && Enabled(w, step) && CarefulStep(w, step)
    ensures Settled(Next(w, step))
  {
    match step
    case Inserts(id, opens, media) => InsertKeepsSettled(w, id, opens, media);
    case LogsIn(id, token, issued) => LoginKeepsSettled(w, id, token, issued);
    case Uploads(ctx) => UploadKeepsSettled(w, ctx);
    case Deletes(slot) => DeleteKeepsSettled(w, slot);
    case Looks(id, token, readable) => LookKeepsSettled(w, id, token, readable);
    case _ =>
  }

  lemma LookKeepsSettled(w: World, id: nat, token: Token, readable: bool)
    requires Inv(w) && Settled(w) && Enabled(w, Looks(id, token, readable))
    ensures Settled(Next(w, Looks(id, token, readable)))
  {
  }

  /** Where stores are deleted and devices logged in to with care, no device ever has two
      published keys. */
  lemma {:induction false} NoDeviceHasTwoKeys(w: World, steps: seq<Step>)
    requires Inv(w) && Settled(w) && Possible(w, steps) && CarefulRun(w, steps)
    ensures Inv(Run(w, steps)) && Settled(Run(w, steps)) && OneKey(Run(w, steps))
    decreases |steps|
  {
    if steps == [] {
    } else {
      StepKeepsInv(w, steps[0]);
      StepKeepsSettled(w, steps[0]);
      NoDeviceHasTwoKeys(Next(w, steps[0]), steps[1..]);
    }
  }

  lemma InitialIsSettled(w: World)
    requires Initial(w)
    ensures Inv(w) && Settled(w)
  {
  }

  /** The steps by which a session is restored with a token alone, and its keys published. */
  function Restore(token: Token, slot: Slot, id: nat, key: Key): seq<Step> {
    [Looks(id, token, true), Inserts(id, true, true), Uploads(Context(token, slot, key))]
  }

  lemma RunFirst(w: World, step: Step, steps: seq<Step>)
    requires Enabled(w, step) && Possible(Next(w, step), steps)
    ensures Possible(w, [step] + steps) && Run(w, [step] + steps) == Run(Next(w, step), steps)
    ensures CarefulRun(w, [step] + steps) <==> CarefulStep(w, step) && CarefulRun(Next(w, step), steps)
  {
    assert ([step] + steps)[1..] == steps;
  }

  lemma ThreeRun(w: World, a: Step, b: Step, c: Step)
    requires Enabled(w, a) && Enabled(Next(w, a), b) && Enabled(Next(Next(w, a), b), c)
    requires forall step :: step in {a, b, c} ==> !step.Deletes? && !step.LogsIn?
    ensures Possible(w, [a, b, c]) && CarefulRun(w, [a, b, c]) && Run(w, [a, b, c]) == Next(Next(Next(w, a), b), c)
  {
    var w1 := Next(w, a);
    var w2 := Next(w1, b);
    assert Possible(Next(w2, c), []) && CarefulRun(Next(w2, c), []);
    assert a in {a, b, c} && b in {a, b, c} && c in {a, b, c};
    RunFirst(w2, c, []);
    assert [c] + [] == [c];
    RunFirst(w1, b, [c]);
    assert [b] + [c] == [b, c];
    RunFirst(w, a, [b, c]);
    assert [a] + [b, c] == [a, b, c];
  }

  /** The world once a session that found nothing published has been admitted. */
  lemma RestoreAdmits(w: World, token: Token, slot: Slot, id: nat)
    requires token in w.tokens && w.tokens[token] == slot && token !in w.sessions && id !in w.inserting
    requires slot !in w.published
    ensures var key := if slot in w.stores then w.stores[slot] else w.brand;
            var w1 := Next(w, Looks(id, token, true));
            var w2 := Next(w1, Inserts(id, true, true));
            && id in w1.inserting
            && w2 == w.(stores := w.stores[slot := key], brand := if slot in w.stores then w.brand else w.brand + 1,
                        sessions := w.sessions[token := Context(token, slot, key)],
                        live := w.live + {Context(token, slot, key)}, inserting := w.inserting - {id})
  {
    var w1 := Next(w, Looks(id, token, true));
    InsertIs(w1, w1.inserting[id], true, true);
    assert w.inserting[id := w1.inserting[id]] - {id} == w.inserting - {id};
    assert slot in w.stores ==> w.stores[slot := w.stores[slot]] == w.stores;
  }

  lemma RestoreRuns(w: World, token: Token, slot: Slot, id: nat)
    requires token in w.tokens && w.tokens[token] == slot && token !in w.sessions && id !in w.inserting
    requires slot !in w.published
    ensures var key := if slot in w.stores then w.stores[slot] else w.brand;
            var steps := Restore(token, slot, id, key);
            && Possible(w, steps) && CarefulRun(w, steps)
            && (var w' := Run(w, steps);
                && w'.ever == w.ever + {(slot, key)} && w'.tokens == w.tokens && w'.issued == w.issued
                && w'.usedTokens == w.usedTokens && w'.planned == w.planned
                && w'.stores == w.stores[slot := key] && w'.published == w.published[slot := key]
                && w'.sessions == w.sessions[token := Context(token, slot, key)]
                && w'.live == w.live + {Context(token, slot, key)}
                && w'.inserting == w.inserting - {id}
                && w'.brand == if slot in w.stores then w.brand else w.brand + 1)
  {
    var key := if slot in w.stores then w.stores[slot] else w.brand;
    RestoreAdmits(w, token, slot, id);
    ThreeRun(w, Looks(id, token, true), Inserts(id, true, true), Uploads(Context(token, slot, key)));
  }

  /** A valid token of a device whose store and published keys are gone brings it second
      keys, restored without a login. */
  lemma TokenAloneLeadsToTwoKeys(w: World, token: Token, slot: Slot, id: nat, key: Key)
    requires Inv(w) && token in w.tokens && w.tokens[token] == slot && token !in w.sessions && id !in w.inserting
    requires slot !in w.stores && slot !in w.published && (slot, key) in w.ever
    ensures var steps := Restore(token, slot, id, w.brand);
            Possible(w, steps) && CarefulRun(w, steps) && !OneKey(Run(w, steps))
  {
    RestoreRuns(w, token, slot, id);
    var w' := Run(w, Restore(token, slot, id, w.brand));
    assert (slot, key) in w'.ever && (slot, w.brand) in w'.ever && key < w.brand;
  }

  /** After a careless deletion, the valid token alone, restored without a login, brings
      the device a second key. */
  lemma CarelessDeletionLeadsToTwoKeys(w: World, slot: Slot, token: Token, id: nat, key: Key)
    requires Inv(w) && Enabled(w, Deletes(slot)) && !Careful(w, slot)
    requires token in w.tokens && w.tokens[token] == slot && (slot, key) in w.ever && id !in w.inserting
    ensures var steps := Restore(token, slot, id, w.brand);
            var w' := Next(w, Deletes(slot));
            Possible(w', steps) && CarefulRun(w', steps) && !OneKey(Run(w', steps))
  {
    StepKeepsInv(w, Deletes(slot));
    TokenAloneLeadsToTwoKeys(Next(w, Deletes(slot)), token, slot, id, key);
  }

  /** Deleting an idle device's store is safe, whatever careful run follows, if and only
      if the homeserver has not lost the keys of a device that still has a valid token. */
  lemma DeletionIsSafeExactlyIfCareful(w: World, slot: Slot, id: nat)
    requires Inv(w) && Settled(w) && Enabled(w, Deletes(slot)) && id !in w.inserting
    ensures Careful(w, slot) <==> SafeAfter(Next(w, Deletes(slot)))
  {
    var w' := Next(w, Deletes(slot));
    if Careful(w, slot) {
      StepKeepsInv(w, Deletes(slot));
      StepKeepsSettled(w, Deletes(slot));
      SettledIsSafe(w');
    } else {
      var token :| token in w.tokens && w.tokens[token] == slot;
      var e :| e in w.ever && e.0 == slot;
      CarelessDeletionLeadsToTwoKeys(w, slot, token, id, e.1);
    }
  }

  /** A login is safe, whatever careful run follows, if and only if its device was never
      published, still is, or has its store. */
  lemma LoginIsSafeExactlyIfCareful(w: World, login: nat, token: Token, issued: Device, id: nat)
    requires Inv(w) && Settled(w) && Enabled(w, LogsIn(login, token, issued)) && id !in w.inserting
    ensures CarefulLogin(w, LoginSlot(w.planned[login], issued))
            <==> SafeAfter(Next(w, LogsIn(login, token, issued)))
  {
    var slot, w' := LoginSlot(w.planned[login], issued), Next(w, LogsIn(login, token, issued));
    StepKeepsInv(w, LogsIn(login, token, issued));
    if CarefulLogin(w, slot) {
      StepKeepsSettled(w, LogsIn(login, token, issued));
      SettledIsSafe(w');
    } else {
      var e :| e in w.ever && e.0 == slot;
      TokenAloneLeadsToTwoKeys(w', token, slot, id, e.1);
    }
  }

  /** No device ever has two published keys, whatever careful run follows. */
  ghost predicate SafeAfter(w: World) {
    forall steps :: Possible(w, steps) && CarefulRun(w, steps) ==> OneKey(Run(w, steps))
  }

  lemma SettledIsSafe(w: World)
    requires Inv(w) && Settled(w)
    ensures SafeAfter(w)
  {
    forall steps | Possible(w, steps) && CarefulRun(w, steps)
      ensures OneKey(Run(w, steps))
    {
      NoDeviceHasTwoKeys(w, steps);
    }
  }

  // ----- Runs from the start that end in two keys

  lemma {:induction false} RunConcat(w: World, a: seq<Step>, b: seq<Step>)
    requires Possible(w, a) && Possible(Run(w, a), b)
    ensures Possible(w, a + b) && Run(w, a + b) == Run(Run(w, a), b)
    ensures CarefulRun(w, a + b) <==> CarefulRun(w, a) && CarefulRun(Run(w, a), b)
    decreases |a|
  {
    if a == [] {
      assert a + b == b;
    } else {
      RunConcat(Next(w, a[0]), a[1..], b);
      assert (a + b)[1..] == a[1..] + b;
    }
  }

  lemma OneStep(w: World, step: Step)
    requires Enabled(w, step)
    ensures Possible(w, [step]) && Run(w, [step]) == Next(w, step)
    ensures CarefulRun(w, [step]) <==> CarefulStep(w, step)
  {
    assert Possible(Next(w, step), []);
    RunFirst(w, step, []);
    assert [step] + [] == [step];
  }

  const FIRST: Token := 1
  const SECOND: Token := 2

  /** A device has logged in and published the store's keys... */
  function Publishing(slot: Slot): World {
    World(map[slot := 0], map[slot := 0], map[FIRST := slot], {FIRST}, {slot},
          map[FIRST := Context(FIRST, slot, 0)], {Context(FIRST, slot, 0)}, map[], map[], 1, {(slot, 0)})
  }

  /** ...and is signed out elsewhere: its store is left, its keys and tokens are not. */
  function SignedOut(slot: Slot): World {
    World(map[slot := 0], map[], map[], {FIRST}, {slot}, map[], {}, map[], map[], 1, {(slot, 0)})
  }

  function Login(slot: Slot, device: Option<Device>, token: Token): seq<Step> {
    [PlansLogin(0, Plan(slot.user, device)), LogsIn(0, token, slot.device)]
  }

  lemma LoginRuns(w: World, slot: Slot, device: Option<Device>, token: Token)
    requires w.planned == map[] && token !in w.usedTokens
    requires if device.Some? then device.value == slot.device else slot !in w.issued
    ensures var steps := Login(slot, device, token);
            && Possible(w, steps)
            && Run(w, steps) == w.(tokens := w.tokens[token := slot], usedTokens := w.usedTokens + {token},
                                   issued := w.issued + {slot})
            && (CarefulRun(w, steps) <==> CarefulLogin(w, slot))
  {
    var plan, login := PlansLogin(0, Plan(slot.user, device)), LogsIn(0, token, slot.device);
    var w1 := Next(w, plan);
    assert LoginSlot(w1.planned[0], slot.device) == slot;
    OneStep(w1, login);
    RunFirst(w, plan, [login]);
    assert [plan] + [login] == Login(slot, device, token);
    assert w1.planned - {0} == map[];
  }

  function PublishSteps(slot: Slot): seq<Step> {
    Login(slot, None, FIRST) + Restore(FIRST, slot, 0, 0)
  }

  lemma PublishRuns(w: World, slot: Slot)
    requires Initial(w)
    ensures Possible(w, PublishSteps(slot)) && CarefulRun(w, PublishSteps(slot))
    ensures Run(w, PublishSteps(slot)) == Publishing(slot)
  {
    LoginRuns(w, slot, None, FIRST);
    var w1 := Run(w, Login(slot, None, FIRST));
    RestoreRuns(w1, FIRST, slot, 0);
    RunConcat(w, Login(slot, None, FIRST), Restore(FIRST, slot, 0, 0));
    assert w1.inserting - {0} == map[];
  }

  function SignOutSteps(slot: Slot): seq<Step> {
    [SignsOut(slot), Evicts(FIRST), Ends(Context(FIRST, slot, 0))]
  }

  lemma SignOutRuns(slot: Slot)
    ensures var w, steps := Publishing(slot), SignOutSteps(slot);
            Possible(w, steps) && CarefulRun(w, steps) && Run(w, steps) == SignedOut(slot)
  {
    var w := Publishing(slot);
    var out, evict, end := SignsOut(slot), Evicts(FIRST), Ends(Context(FIRST, slot, 0));
    var w1 := Next(w, out);
    var w2 := Next(w1, evict);
    assert w1.tokens == map[] && w1.published == map[] && w2.sessions == map[];
    assert Next(w2, end).live == {};
    OneStep(w2, end);
    RunFirst(w1, evict, [end]);
    RunFirst(w, out, [evict] + [end]);
    assert [out] + ([evict] + [end]) == SignOutSteps(slot);
  }

  function ToSignedOut(slot: Slot): seq<Step> {
    PublishSteps(slot) + SignOutSteps(slot)
  }

  lemma SignedOutIsReached(w: World, slot: Slot)
    requires Initial(w)
    ensures Possible(w, ToSignedOut(slot)) && CarefulRun(w, ToSignedOut(slot))
    ensures Run(w, ToSignedOut(slot)) == SignedOut(slot)
  {
    PublishRuns(w, slot);
    SignOutRuns(slot);
    RunConcat(w, PublishSteps(slot), SignOutSteps(slot));
  }

  /** A careful run leads to where a deletion would be careless: the device, signed out,
      logs in again and its store is deleted before anything is published anew. */
  lemma CarelessDeletionIsReached(w: World, slot: Slot)
    requires Initial(w)
    ensures var steps := ToSignedOut(slot) + Login(slot, Some(slot.device), SECOND);
            && Possible(w, steps) && CarefulRun(w, steps)
            && Enabled(Run(w, steps), Deletes(slot)) && !Careful(Run(w, steps), slot)
  {
    SignedOutIsReached(w, slot);
    var w1 := SignedOut(slot);
    LoginRuns(w1, slot, Some(slot.device), SECOND);
    RunConcat(w, ToSignedOut(slot), Login(slot, Some(slot.device), SECOND));
    var w2 := Run(w1, Login(slot, Some(slot.device), SECOND));
    assert (slot, 0) in w2.ever && w2.tokens[SECOND] == slot;
  }

  function ForeignLoginSteps(slot: Slot): seq<Step> {
    ToSignedOut(slot) + ([Deletes(slot)]
                         + (Login(slot, Some(slot.device), SECOND) + Restore(SECOND, slot, 0, 1)))
  }

  /** A login without a user goes out with the device ID it came with. In this run every store
      is deleted with care, and yet such a login brings a signed-out device second keys. */
  lemma ForeignLoginLeadsToTwoKeys(w: World, slot: Slot)
    requires Initial(w)
    ensures var steps := ForeignLoginSteps(slot);
            Possible(w, steps) && !CarefulRun(w, steps) && !OneKey(Run(w, steps))
    ensures Possible(w, ToSignedOut(slot)) && CarefulRun(w, ToSignedOut(slot))
    ensures Run(w, ToSignedOut(slot)) == SignedOut(slot) && Careful(SignedOut(slot), slot)
  {
    SignedOutIsReached(w, slot);
    var w1, login, restore := SignedOut(slot), Login(slot, Some(slot.device), SECOND), Restore(SECOND, slot, 0, 1);
    OneStep(w1, Deletes(slot));
    var w2 := Next(w1, Deletes(slot));
    assert w2.stores == map[];
    assert (slot, 0) in w2.ever;
    LoginRuns(w2, slot, Some(slot.device), SECOND);
    var w3 := Run(w2, login);
    RestoreRuns(w3, SECOND, slot, 0);
    RunConcat(w2, login, restore);
    RunConcat(w1, [Deletes(slot)], login + restore);
    RunConcat(w, ToSignedOut(slot), [Deletes(slot)] + (login + restore));
    var w4 := Run(w, ForeignLoginSteps(slot));
    assert (slot, 0) in w4.ever && (slot, 1) in w4.ever;
  }
}
