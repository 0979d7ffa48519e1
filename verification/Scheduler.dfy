/** The resident dispatcher: bounded reservations handed out round-robin, each under a fenced claim. */
module Scheduler {
  import opened Contracts
  import opened Events
  import opened Claims
  import opened Tables
  import opened EventStore

  datatype Worker = Worker(id: AgentId, mailbox: AgentId, maxConcurrency: nat)
  datatype Delivery = Delivery(deliveryId: nat, runId: RunId, agentRun: Text)
  type ReservationKey = (AgentId, nat)
  datatype Selected = Selected(index: nat, position: nat, delivery: Delivery, tokens: Tokens)

  /** A reservation in flight: whose work it is, its tokens, and whether its context was cancelled. */
  datatype Reservation = Reservation(runId: RunId, tokens: Tokens, cancelled: bool)

  /**
    What one reservation reads while it runs: each worker's pending deliveries when its turn comes, the
    run filter of the caller, and the clock anew for every worker, delivery position and slot it tries.
   */
  datatype Intake = Intake(
    pending: AgentId -> seq<Delivery>,
    allowed: Option<set<RunId>>,
    clock: (AgentId, nat, nat) -> int)

  function PendingOf(intake: Intake, worker: Worker): seq<Delivery> {
    intake.pending(worker.mailbox)
  }

  function KeysFor(worker: Worker, delivery: Delivery, slot: nat): set<ClaimKey> {
    {DeliveryKey(worker.mailbox, delivery.deliveryId), AgentRunKey(delivery.agentRun), WorkerSlotKey(worker.id, slot)}
  }

  function Load(keys: set<ReservationKey>, worker: AgentId): nat {
    |set key | key in keys && key.0 == worker|
  }

  predicate SlotIsFree(s: Store, worker: Worker, delivery: Delivery, slot: nat, now: int) {
    CanClaim(s, KeysFor(worker, delivery, slot), now, Some(delivery.runId))
  }

  predicate HasFreeSlot(s: Store, worker: Worker, delivery: Delivery, position: nat, intake: Intake) {
    exists slot | 0 <= slot < worker.maxConcurrency ::
      SlotIsFree(s, worker, delivery, slot, intake.clock(worker.id, position, slot))
  }

  /** The first free slot of the worker was claimed for this delivery, key by key, at the time it was tried. */
  ghost predicate TakesSlot(s: Store, after: ClaimTable, worker: Worker, delivery: Delivery, position: nat, intake: Intake,
                            owner: OwnerId, ttl: nat, tokens: Tokens, slot: nat)
  {
    && slot < worker.maxConcurrency
    && SlotIsFree(s, worker, delivery, slot, intake.clock(worker.id, position, slot))
    && (forall k | 0 <= k < slot :: !SlotIsFree(s, worker, delivery, k, intake.clock(worker.id, position, k)))
    && tokens == Granted(s.claims, KeysFor(worker, delivery, slot))
    && after == Claimed(s.claims, KeysFor(worker, delivery, slot), owner, ttl, intake.clock(worker.id, position, slot))
  }

  ghost predicate ClaimsSlot(s: Store, after: ClaimTable, worker: Worker, delivery: Delivery, position: nat, intake: Intake,
                             owner: OwnerId, ttl: nat, tokens: Tokens)
  {
    exists slot :: TakesSlot(s, after, worker, delivery, position, intake, owner, ttl, tokens, slot)
  }

  predicate MayServe(reserved: set<ReservationKey>, cancelled: set<RunId>, intake: Intake, worker: Worker, delivery: Delivery) {
    && (intake.allowed.Some? ==> delivery.runId in intake.allowed.value)
    && delivery.runId !in cancelled
    && (worker.id, delivery.deliveryId) !in reserved
  }

  /** The delivery at a position of the worker's mailbox may be served, and a slot can be claimed for it. */
  predicate Servable(s: Store, reserved: set<ReservationKey>, cancelled: set<RunId>, intake: Intake, worker: Worker, position: nat) {
    && position < |PendingOf(intake, worker)|
    && MayServe(reserved, cancelled, intake, worker, PendingOf(intake, worker)[position])
    && HasFreeSlot(s, worker, PendingOf(intake, worker)[position], position, intake)
  }

  /** The worker has room, and some delivery of its mailbox is servable. */
  predicate Reservable(s: Store, reserved: set<ReservationKey>, cancelled: set<RunId>, intake: Intake, worker: Worker) {
    && Load(reserved, worker.id) < worker.maxConcurrency
    && exists position | 0 <= position < |PendingOf(intake, worker)| :: Servable(s, reserved, cancelled, intake, worker, position)
  }

  /** The worker's first servable delivery was reserved. */
  ghost predicate IsServed(s: Store, after: ClaimTable, reserved: set<ReservationKey>, cancelled: set<RunId>, intake: Intake,
                           worker: Worker, owner: OwnerId, ttl: nat, found: Selected)
  {
    && Servable(s, reserved, cancelled, intake, worker, found.position)
    && (forall k | 0 <= k < found.position :: !Servable(s, reserved, cancelled, intake, worker, k))
    && found.delivery == PendingOf(intake, worker)[found.position]
    && ClaimsSlot(s, after, worker, found.delivery, found.position, intake, owner, ttl, found.tokens)
  }

  // ---- round robin ----

  /** How many places after the cursor an index is tried. */
  function Distance(cursor: nat, index: nat, n: nat): nat
    requires cursor < n && index < n
  {
    if index >= cursor then index - cursor else index + n - cursor
  }

  function IndexAt(cursor: nat, offset: nat, n: nat): nat
    requires cursor < n && offset < n
  {
    (cursor + offset) % n
  }

  lemma IndexAtDistance(cursor: nat, offset: nat, n: nat)
    requires cursor < n && offset < n
    ensures IndexAt(cursor, offset, n) < n && Distance(cursor, IndexAt(cursor, offset, n), n) == offset
  {
    if cursor + offset < n {
      assert (cursor + offset) % n == cursor + offset;
    } else {
      assert (cursor + offset - n) % n == cursor + offset - n;
      assert (cursor + offset) % n == (cursor + offset - n) % n;
    }
  }

  lemma DistancesDiffer(cursor: nat, a: nat, b: nat, n: nat)
    requires cursor < n && a < n && b < n
    ensures Distance(cursor, a, n) == Distance(cursor, b, n) <==> a == b
    ensures Distance(cursor, a, n) < n
  {}

  function CursorAfter(index: nat, n: nat): nat
    requires index < n
  {
    (index + 1) % n
  }

  /** Whoever is passed over is strictly nearer afterwards. */
  lemma PassedOverComesNearer(cursor: nat, chosen: nat, waiting: nat, n: nat)
    requires cursor < n && chosen < n && waiting < n
    requires Distance(cursor, chosen, n) <= Distance(cursor, waiting, n) && chosen != waiting
    ensures CursorAfter(chosen, n) < n
    ensures Distance(CursorAfter(chosen, n), waiting, n) < Distance(cursor, waiting, n)
  {
    if chosen + 1 < n {
      assert (chosen + 1) % n == chosen + 1;
    } else {
      assert (chosen + 1) % n == 0;
    }
  }

  // ---- loads ----

  lemma LoadAfterAdding(keys: set<ReservationKey>, key: ReservationKey, worker: AgentId)
    requires key !in keys
    ensures Load(keys + {key}, worker) == Load(keys, worker) + (if key.0 == worker then 1 else 0)
  {
    var before := set k | k in keys && k.0 == worker;
    var after := set k | k in keys + {key} && k.0 == worker;
    assert after == if key.0 == worker then before + {key} else before;
  }

  lemma LoadAfterRemoving(keys: set<ReservationKey>, key: ReservationKey, worker: AgentId)
    ensures Load(keys - {key}, worker) <= Load(keys, worker)
  {
    if key in keys {
      LoadAfterAdding(keys - {key}, key, worker);
      assert keys - {key} + {key} == keys;
    } else {
      assert keys - {key} == keys;
    }
  }

  ghost predicate WithinConcurrency(workers: seq<Worker>, reserved: set<ReservationKey>) {
    && (forall i, j | 0 <= i < j < |workers| :: workers[i].id != workers[j].id)
    && (forall worker | worker in workers :: Load(reserved, worker.id) <= worker.maxConcurrency)
    && (forall key | key in reserved :: exists worker :: worker in workers && worker.id == key.0)
  }

  lemma AddingKeepsConcurrency(workers: seq<Worker>, reserved: set<ReservationKey>, key: ReservationKey, worker: Worker)
    requires WithinConcurrency(workers, reserved) && worker in workers && key.0 == worker.id && key !in reserved
    requires Load(reserved, worker.id) < worker.maxConcurrency
    ensures WithinConcurrency(workers, reserved + {key})
  {
    hide Load;
    forall w | w in workers
      ensures Load(reserved + {key}, w.id) <= w.maxConcurrency
    {
      LoadAfterAdding(reserved, key, w.id);
      var i :| 0 <= i < |workers| && workers[i] == w;
      var j :| 0 <= j < |workers| && workers[j] == worker;
    }
  }

  lemma RemovingKeepsConcurrency(workers: seq<Worker>, reserved: set<ReservationKey>, key: ReservationKey)
    requires WithinConcurrency(workers, reserved)
    ensures WithinConcurrency(workers, reserved - {key})
  {
    hide Load;
    forall w | w in workers
      ensures Load(reserved - {key}, w.id) <= w.maxConcurrency
    {
      LoadAfterRemoving(reserved, key, w.id);
    }
  }

  /** Some worker can be served, and none nearer to the cursor than this one. */
  ghost predicate IsNearest(s: Store, reserved: set<ReservationKey>, cancelled: set<RunId>, intake: Intake, workers: seq<Worker>,
                            cursor: nat, index: nat)
  {
    && index < |workers| && cursor < |workers|
    && Reservable(s, reserved, cancelled, intake, workers[index])
    && forall other | 0 <= other < |workers| && Reservable(s, reserved, cancelled, intake, workers[other]) ::
         Distance(cursor, index, |workers|) <= Distance(cursor, other, |workers|)
  }

  ghost predicate NobodyWaits(s: Store, reserved: set<ReservationKey>, cancelled: set<RunId>, intake: Intake, workers: seq<Worker>) {
    forall worker | worker in workers :: !Reservable(s, reserved, cancelled, intake, worker)
  }

  /** No worker within the first places after the cursor can be served. */
  ghost predicate NobodyWithin(s: Store, reserved: set<ReservationKey>, cancelled: set<RunId>, intake: Intake, workers: seq<Worker>,
                               cursor: nat, places: nat)
    requires cursor < |workers|
  {
    forall index | 0 <= index < |workers| && Distance(cursor, index, |workers|) < places ::
      !Reservable(s, reserved, cancelled, intake, workers[index])
  }

  lemma NextPlaceTried(s: Store, reserved: set<ReservationKey>, cancelled: set<RunId>, intake: Intake, workers: seq<Worker>,
                       cursor: nat, places: nat)
    requires cursor < |workers| && places < |workers|
    requires NobodyWithin(s, reserved, cancelled, intake, workers, cursor, places)
    ensures
      var index := IndexAt(cursor, places, |workers|);
      && index < |workers|
      && (Reservable(s, reserved, cancelled, intake, workers[index]) ==>
            IsNearest(s, reserved, cancelled, intake, workers, cursor, index))
      && (!Reservable(s, reserved, cancelled, intake, workers[index]) ==>
            NobodyWithin(s, reserved, cancelled, intake, workers, cursor, places + 1))
  {
    hide Reservable, IndexAt, Distance;
    var index := IndexAt(cursor, places, |workers|);
    IndexAtDistance(cursor, places, |workers|);
    forall other | 0 <= other < |workers|
      ensures Distance(cursor, other, |workers|) == places <==> other == index
    {
      DistancesDiffer(cursor, index, other, |workers|);
    }
  }

  lemma WholePassTried(s: Store, reserved: set<ReservationKey>, cancelled: set<RunId>, intake: Intake, workers: seq<Worker>, cursor: nat)
    requires cursor < |workers| && NobodyWithin(s, reserved, cancelled, intake, workers, cursor, |workers|)
    ensures NobodyWaits(s, reserved, cancelled, intake, workers)
  {
    hide Reservable, Distance;
    forall index | 0 <= index < |workers|
      ensures !Reservable(s, reserved, cancelled, intake, workers[index])
    {
      DistancesDiffer(cursor, index, index, |workers|);
    }
  }

  // ---- fairness ----

  /** What a reservation starts from. */
  datatype Snapshot = Snapshot(store: Store, reserved: set<ReservationKey>, cancelled: set<RunId>, intake: Intake, cursor: nat)

  /** Consecutive reservations over the same workers, whatever else changes between them. */
  ghost predicate AreReservations(workers: seq<Worker>, before: seq<Snapshot>, choices: seq<nat>) {
    && |before| == |choices|
    && (forall k | 0 <= k < |choices| ::
          IsNearest(before[k].store, before[k].reserved, before[k].cancelled, before[k].intake, workers, before[k].cursor, choices[k]))
    && (forall k | 0 <= k < |choices| - 1 :: choices[k] < |workers| && before[k + 1].cursor == CursorAfter(choices[k], |workers|))
  }

  /** At each of these reservations the worker could have been served. */
  ghost predicate StaysEligible(workers: seq<Worker>, before: seq<Snapshot>, waiting: nat)
    requires waiting < |workers|
  {
    forall k | 0 <= k < |before| ::
      Reservable(before[k].store, before[k].reserved, before[k].cancelled, before[k].intake, workers[waiting])
  }

  /** A worker that stays eligible is reserved within one pass of as many reservations as there are workers. */
  lemma ServedWithinOnePass(workers: seq<Worker>, before: seq<Snapshot>, choices: seq<nat>, waiting: nat)
    requires waiting < |workers| && AreReservations(workers, before, choices) && StaysEligible(workers, before, waiting)
    requires |choices| >= |workers|
    ensures exists k :: 0 <= k < |workers| && choices[k] == waiting
  {
    hide Reservable, Distance;
    DistancesDiffer(before[0].cursor, waiting, waiting, |workers|);
    ServedWithinDistance(workers, before, choices, waiting);
  }

  lemma {:induction false} ServedWithinDistance(workers: seq<Worker>, before: seq<Snapshot>, choices: seq<nat>, waiting: nat)
    requires waiting < |workers| && AreReservations(workers, before, choices) && StaysEligible(workers, before, waiting)
    requires |choices| > 0 && before[0].cursor < |workers|
    requires |choices| > Distance(before[0].cursor, waiting, |workers|)
    ensures exists k :: 0 <= k <= Distance(before[0].cursor, waiting, |workers|) && choices[k] == waiting
    decreases |choices|
  {
    hide Reservable, Distance, CursorAfter;
    if choices[0] == waiting {
      assert choices[0] == waiting;
    } else {
      PassedOverComesNearer(before[0].cursor, choices[0], waiting, |workers|);
      ServedWithinDistance(workers, before[1..], choices[1..], waiting);
      var k :| 0 <= k <= Distance(before[1].cursor, waiting, |workers|) && choices[1..][k] == waiting;
      assert choices[k + 1] == waiting;
    }
  }

  // ---- across schedulers ----

  datatype Held = Held(worker: Worker, delivery: Delivery, slot: nat, owner: OwnerId, tokens: Tokens)

  ghost predicate HoldsCurrently(claims: ClaimTable, held: Held, now: int) {
    held.tokens.Keys == KeysFor(held.worker, held.delivery, held.slot) && AreCurrent(claims, held.tokens, held.owner, now)
  }

  /**
    Across all schedulers on one store, whatever clocks they read: one delivery, one agent run and one
    worker slot are each held by one claim at a time.
   */
  lemma ReservationsAreExclusive(claims: ClaimTable, a: Held, b: Held, nowA: int, nowB: int)
    requires HoldsCurrently(claims, a, nowA) && HoldsCurrently(claims, b, nowB)
    requires (a.worker.mailbox == b.worker.mailbox && a.delivery.deliveryId == b.delivery.deliveryId)
      || a.delivery.agentRun == b.delivery.agentRun
      || (a.worker.id == b.worker.id && a.slot == b.slot)
    ensures a.owner == b.owner
    ensures exists key :: key in a.tokens && key in b.tokens && a.tokens[key] == b.tokens[key]
  {
    var key :| key in KeysFor(a.worker, a.delivery, a.slot) && key in KeysFor(b.worker, b.delivery, b.slot);
    assert key in a.tokens && key in b.tokens;
    CurrentHolderIsUnique(claims, key, a.tokens, b.tokens, a.owner, b.owner, nowA, nowB);
  }

  datatype RegisterResult = Registered | ConcurrencyNotPositive | AlreadyRegistered

  class ResidentScheduler {
    const store: SQLiteEventStore
    const owner: OwnerId
    const maxWorkers: nat
    const claimSeconds: nat
    var workers: seq<Worker>
    var inFlight: map<ReservationKey, Reservation>
    var cursor: nat
    var accepting: bool
    var cancelledRuns: set<RunId>
    var completedSteps: nat

    ghost predicate Valid()
      reads this
    {
      && maxWorkers >= 1 && claimSeconds >= 1
      && |inFlight| <= maxWorkers
      && WithinConcurrency(workers, inFlight.Keys)
      && (cursor < |workers| || cursor == 0)
    }

    constructor (store: SQLiteEventStore, owner: OwnerId, maxWorkers: nat, claimSeconds: nat)
      requires maxWorkers >= 1 && claimSeconds >= 1
      ensures Valid() && workers == [] && inFlight == map[] && accepting && this.maxWorkers == maxWorkers
      ensures this.store == store
    {
      this.store, this.owner, this.maxWorkers, this.claimSeconds := store, owner, maxWorkers, claimSeconds;
      workers, inFlight, cursor, accepting, cancelledRuns, completedSteps := [], map[], 0, true, {}, 0;
    }

    method Register(worker: Worker) returns (result: RegisterResult)
      requires Valid()
      modifies this`workers
      ensures Valid()
      ensures result.ConcurrencyNotPositive? <==> worker.maxConcurrency < 1
      ensures result.AlreadyRegistered? <==> worker.maxConcurrency >= 1 && exists w :: w in old(workers) && w.id == worker.id
      ensures workers == if result.Registered? then old(workers) + [worker] else old(workers)
    {
      if worker.maxConcurrency < 1 {
        return ConcurrencyNotPositive;
      }
      for i := 0 to |workers|
        invariant forall j | 0 <= j < i :: workers[j].id != worker.id
      {
        if workers[i].id == worker.id {
          return AlreadyRegistered;
        }
      }
      assert (set key | key in inFlight.Keys && key.0 == worker.id) == {};
      workers := workers + [worker];
      assert forall w | w in old(workers) :: w in workers;
      return Registered;
    }

    method WorkerInFlight(worker: AgentId) returns (count: nat)
      ensures count == Load(inFlight.Keys, worker)
    {
      count := 0;
      var todo := inFlight.Keys;
      ghost var seen: set<ReservationKey> := {};
      assert (set key | key in seen && key.0 == worker) == {};
      while todo != {}
        invariant seen + todo == inFlight.Keys && seen !! todo
        invariant count == Load(seen, worker)
        decreases todo
      {
        var key :| key in todo;
        LoadAfterAdding(seen, key, worker);
        if key.0 == worker {
          count := count + 1;
        }
        seen := seen + {key};
        todo := todo - {key};
      }
      assert seen == inFlight.Keys;
    }

    /** Tries the worker's slots in order until the whole bundle of keys can be claimed. */
    method ClaimSlot(worker: Worker, delivery: Delivery, position: nat, intake: Intake) returns (tokens: Option<Tokens>)
      requires claimSeconds >= 1
      modifies store`claims
      ensures tokens.Some? <==> HasFreeSlot(old(store.View()), worker, delivery, position, intake)
      ensures tokens.None? ==> store.View() == old(store.View())
      ensures tokens.Some? ==>
        ClaimsSlot(old(store.View()), store.claims, worker, delivery, position, intake, owner, claimSeconds, tokens.value)
    {
      hide Claims.Claimable;
      for slot := 0 to worker.maxConcurrency
        invariant store.View() == old(store.View())
        invariant forall k | 0 <= k < slot ::
          !SlotIsFree(store.View(), worker, delivery, k, intake.clock(worker.id, position, k))
      {
        var keys := KeysFor(worker, delivery, slot);
        var now := intake.clock(worker.id, position, slot);
        assert AgentRunKey(delivery.agentRun) in keys;
        var outcome := store.ClaimWork(keys, owner, claimSeconds, now, Some(delivery.runId));
        if outcome.TokensGranted? {
          assert SlotIsFree(old(store.View()), worker, delivery, slot, now);
          assert store.View().claims == Claimed(old(store.claims), keys, owner, claimSeconds, now);
          assert TakesSlot(old(store.View()), store.claims, worker, delivery, position, intake, owner, claimSeconds, outcome.tokens, slot);
          return Some(outcome.tokens);
        }
      }
      return None;
    }

    /** The first delivery of the worker that may be served and can be claimed. */
    method ReserveFor(worker: Worker, intake: Intake) returns (found: Option<Selected>)
      requires Valid() && worker in workers && Load(inFlight.Keys, worker.id) < worker.maxConcurrency && |inFlight| < maxWorkers
      modifies store`claims, this`inFlight
      ensures Valid()
      ensures found.Some? <==> Reservable(old(store.View()), old(inFlight.Keys), cancelledRuns, intake, worker)
      ensures found.None? ==> store.View() == old(store.View()) && inFlight == old(inFlight)
      ensures found.Some? ==>
        IsServed(old(store.View()), store.claims, old(inFlight.Keys), cancelledRuns, intake, worker, owner, claimSeconds, found.value)
      ensures found.Some? ==>
        var key := (worker.id, found.value.delivery.deliveryId);
        && key !in old(inFlight)
        && inFlight == old(inFlight)[key := Reservation(found.value.delivery.runId, found.value.tokens, false)]
    {
      hide HasFreeSlot, ClaimsSlot, Load, WithinConcurrency;
      var deliveries := PendingOf(intake, worker);
      ghost var s, reserved := store.View(), inFlight.Keys;
      for i := 0 to |deliveries|
        invariant store.View() == s && inFlight == old(inFlight)
        invariant forall k | 0 <= k < i :: !Servable(s, reserved, cancelledRuns, intake, worker, k)
      {
        if MayServe(inFlight.Keys, cancelledRuns, intake, worker, deliveries[i]) {
          var tokens := ClaimSlot(worker, deliveries[i], i, intake);
          if tokens.Some? {
            var key := (worker.id, deliveries[i].deliveryId);
            Reserve(key, worker, Reservation(deliveries[i].runId, tokens.value, false));
            assert Servable(s, reserved, cancelledRuns, intake, worker, i);
            return Some(Selected(0, i, deliveries[i], tokens.value));
          }
        }
      }
      return None;
    }

    method Reserve(key: ReservationKey, worker: Worker, reservation: Reservation)
      requires Valid() && worker in workers && key.0 == worker.id && key !in inFlight
      requires Load(inFlight.Keys, worker.id) < worker.maxConcurrency && |inFlight| < maxWorkers
      modifies this`inFlight
      ensures Valid() && inFlight == old(inFlight)[key := reservation]
    {
      hide Load, WithinConcurrency;
      AddingKeepsConcurrency(workers, inFlight.Keys, key, worker);
      inFlight := inFlight[key := reservation];
      assert inFlight.Keys == old(inFlight).Keys + {key};
    }

    /** Starting after the worker served last, the first one that can be given work gets it. */
    method ReserveNext(intake: Intake) returns (selected: Option<Selected>)
      requires Valid()
      modifies store`claims, this`inFlight, this`cursor
      ensures Valid()
      ensures selected.None? ==> store.View() == old(store.View()) && inFlight == old(inFlight) && cursor == old(cursor)
      ensures selected.None? && accepting && |old(inFlight)| < maxWorkers ==>
        NobodyWaits(old(store.View()), old(inFlight.Keys), cancelledRuns, intake, workers)
      ensures selected.Some? ==> accepting && |old(inFlight)| < maxWorkers
      ensures selected.Some? ==>
        IsNearest(old(store.View()), old(inFlight.Keys), cancelledRuns, intake, workers, old(cursor), selected.value.index)
      ensures selected.Some? ==> cursor == CursorAfter(selected.value.index, |workers|)
      ensures selected.Some? ==>
        IsServed(old(store.View()), store.claims, old(inFlight.Keys), cancelledRuns, intake, workers[selected.value.index], owner,
          claimSeconds, selected.value)
      ensures selected.Some? ==>
        var key := (workers[selected.value.index].id, selected.value.delivery.deliveryId);
        && key !in old(inFlight)
        && inFlight == old(inFlight)[key := Reservation(selected.value.delivery.runId, selected.value.tokens, false)]
    {
      hide WithinConcurrency, IsServed, Reservable, NobodyWaits, Distance, CursorAfter;
      if !accepting || |inFlight| >= maxWorkers {
        return None;
      }
      if workers == [] {
        NobodyThere(store.View(), inFlight.Keys, cancelledRuns, intake);
        return None;
      }
      selected := ReserveInTurn(intake);
      if selected.Some? {
        NextCursorIsValid(selected.value.index, |workers|);
        cursor := CursorAfter(selected.value.index, |workers|);
      }
    }

    /** One pass over the workers from the cursor on. */
    method ReserveInTurn(intake: Intake) returns (selected: Option<Selected>)
      requires Valid() && workers != [] && |inFlight| < maxWorkers
      modifies store`claims, this`inFlight
      ensures Valid()
      ensures selected.None? ==> store.View() == old(store.View()) && inFlight == old(inFlight)
      ensures selected.None? ==> NobodyWaits(old(store.View()), old(inFlight.Keys), cancelledRuns, intake, workers)
      ensures selected.Some? ==>
        IsNearest(old(store.View()), old(inFlight.Keys), cancelledRuns, intake, workers, cursor, selected.value.index)
      ensures selected.Some? ==>
        IsServed(old(store.View()), store.claims, old(inFlight.Keys), cancelledRuns, intake, workers[selected.value.index], owner,
          claimSeconds, selected.value)
      ensures selected.Some? ==>
        var key := (workers[selected.value.index].id, selected.value.delivery.deliveryId);
        && key !in old(inFlight)
        && inFlight == old(inFlight)[key := Reservation(selected.value.delivery.runId, selected.value.tokens, false)]
    {
      hide WithinConcurrency, Distance, IndexAt, Servable, ClaimsSlot, NobodyWithin, NobodyWaits, Load;
      ghost var s, reserved := store.View(), inFlight.Keys;
      NobodyYet(s, reserved, cancelledRuns, intake, workers, cursor);
      for offset := 0 to |workers|
        invariant store.View() == s && inFlight == old(inFlight) && Valid()
        invariant NobodyWithin(s, reserved, cancelledRuns, intake, workers, cursor, offset)
      {
        NextPlaceTried(s, reserved, cancelledRuns, intake, workers, cursor, offset);
        var index := IndexAt(cursor, offset, |workers|);
        var busy := WorkerInFlight(workers[index].id);
        if busy < workers[index].maxConcurrency {
          var found := ReserveFor(workers[index], intake);
          if found.Some? {
            return Some(found.value.(index := index));
          }
        }
      }
      WholePassTried(s, reserved, cancelledRuns, intake, workers, cursor);
      return None;
    }

    method ReleaseReservation(worker: AgentId, delivery: nat)
      requires Valid()
      modifies this`inFlight, this`completedSteps
      ensures Valid()
      ensures inFlight == old(inFlight) - {(worker, delivery)} && completedSteps == old(completedSteps) + 1
    {
      hide Load, WithinConcurrency;
      ghost var key := (worker, delivery);
      RemovingKeepsConcurrency(workers, inFlight.Keys, key);
      SmallerMap(inFlight, key);
      inFlight := inFlight - {(worker, delivery)};
      completedSteps := completedSteps + 1;
    }

    method ReleaseAll(keys: seq<ReservationKey>)
      requires Valid()
      modifies this`inFlight, this`completedSteps
      ensures Valid()
      ensures forall key :: key in inFlight <==> key in old(inFlight) && key !in keys
      ensures forall key | key in inFlight :: inFlight[key] == old(inFlight)[key]
      ensures completedSteps == old(completedSteps) + |keys|
    {
      hide WithinConcurrency;
      for i := 0 to |keys|
        invariant Valid() && completedSteps == old(completedSteps) + i
        invariant forall key :: key in inFlight <==> key in old(inFlight) && key !in keys[..i]
        invariant forall key | key in inFlight :: inFlight[key] == old(inFlight)[key]
      {
        ReleaseReservation(keys[i].0, keys[i].1);
        assert keys[..i + 1] == keys[..i] + [keys[i]];
      }
      assert keys[..|keys|] == keys;
    }

    /** Fills the pool, reading mailboxes and clock anew for every reservation, until it is full or nobody can be served. */
    method DispatchAvailable(intakes: nat -> Intake) returns (dispatched: nat)
      requires Valid()
      modifies store`claims, this`inFlight, this`cursor
      ensures Valid()
      ensures |inFlight| == |old(inFlight)| + dispatched
      ensures accepting ==>
        |inFlight| == maxWorkers || NobodyWaits(store.View(), inFlight.Keys, cancelledRuns, intakes(dispatched), workers)
      ensures !accepting ==> dispatched == 0 && store.View() == old(store.View()) && inFlight == old(inFlight) && cursor == old(cursor)
    {
      hide NobodyWaits, IsNearest, WithinConcurrency, IsServed, CursorAfter;
      dispatched := 0;
      if !accepting {
        return;
      }
      while true
        invariant Valid() && |inFlight| == |old(inFlight)| + dispatched
        decreases maxWorkers - |inFlight|
      {
        var selected := ReserveNext(intakes(dispatched));
        if selected.None? {
          return;
        }
        dispatched := dispatched + 1;
      }
    }

    /**
      Reservations one after another, each after whatever releases came before it; the trace they leave is
      one to which the fairness of the rotation applies.
     */
    method ReserveRounds(releases: seq<seq<ReservationKey>>, intakes: seq<Intake>) returns (choices: seq<nat>, ghost before: seq<Snapshot>)
      requires Valid() && |releases| == |intakes|
      modifies store`claims, this`inFlight, this`cursor, this`completedSteps
      ensures Valid()
      ensures AreReservations(workers, before, choices) && |choices| <= |intakes|
      ensures |choices| == |before| && forall k | 0 <= k < |choices| :: IsReleased(before[k], releases[k])
      ensures forall waiting | 0 <= waiting < |workers| && |choices| >= |workers| && StaysEligible(workers, before, waiting) ::
        waiting in choices[..|workers|]
    {
      hide IsNearest, WithinConcurrency, IsServed, CursorAfter, NobodyWaits, StaysEligible, IsReleased;
      choices, before := [], [];
      for i := 0 to |intakes|
        invariant Valid() && |choices| == |before| == i
        invariant forall k | 0 <= k < i :: IsReleased(before[k], releases[k])
        invariant forall k | 0 <= k < |choices| ::
          IsNearest(before[k].store, before[k].reserved, before[k].cancelled, before[k].intake, workers, before[k].cursor, choices[k])
        invariant forall k | 0 <= k < |choices| - 1 ::
          choices[k] < |workers| && before[k + 1].cursor == CursorAfter(choices[k], |workers|)
        invariant |choices| > 0 ==> choices[|choices| - 1] < |workers| && cursor == CursorAfter(choices[|choices| - 1], |workers|)
      {
        ReleaseAll(releases[i]);
        ghost var snapshot := Snapshot(store.View(), inFlight.Keys, cancelledRuns, intakes[i], cursor);
        ReleasedShows(snapshot, releases[i]);
        var selected := ReserveNext(intakes[i]);
        if selected.None? {
          ShortTraceIsFair(workers, before, choices);
          return;
        }
        NearestIsAWorker(snapshot, workers, selected.value.index);
        before := before + [snapshot];
        choices := choices + [selected.value.index];
      }
      ShortTraceIsFair(workers, before, choices);
    }

    method Pause()
      requires Valid()
      modifies this`accepting
      ensures Valid() && !accepting
    {
      accepting := false;
    }

    method Resume()
      requires Valid()
      modifies this`accepting
      ensures Valid() && accepting
    {
      accepting := true;
    }

    /** Blocks the run's deliveries from now on and cancels the contexts of those in flight; no reservation is dropped. */
    method CancelRun(run: RunId) returns (targets: nat)
      requires Valid()
      modifies this`cancelledRuns, this`inFlight
      ensures Valid() && cancelledRuns == old(cancelledRuns) + {run}
      ensures targets == |RunReservations(old(inFlight), run)|
      ensures inFlight == ContextsCancelled(old(inFlight), run)
    {
      hide WithinConcurrency;
      cancelledRuns := cancelledRuns + {run};
      var todo := RunReservations(inFlight, run);
      targets := |todo|;
      while todo != {}
        invariant todo <= RunReservations(old(inFlight), run) && cancelledRuns == old(cancelledRuns) + {run}
        invariant inFlight.Keys == old(inFlight).Keys && |inFlight| == |old(inFlight)|
        invariant forall key | key in inFlight ::
          inFlight[key] ==
            (if key in RunReservations(old(inFlight), run) - todo then old(inFlight)[key].(cancelled := true) else old(inFlight)[key])
        decreases todo
      {
        var key :| key in todo;
        inFlight := inFlight[key := inFlight[key].(cancelled := true)];
        todo := todo - {key};
      }
    }
  }

  function RunReservations(inFlight: map<ReservationKey, Reservation>, run: RunId): set<ReservationKey> {
    set key | key in inFlight && inFlight[key].runId == run
  }

  function ContextsCancelled(inFlight: map<ReservationKey, Reservation>, run: RunId): map<ReservationKey, Reservation> {
    map key | key in inFlight :: if inFlight[key].runId == run then inFlight[key].(cancelled := true) else inFlight[key]
  }

  lemma NearestIsAWorker(snapshot: Snapshot, workers: seq<Worker>, index: nat)
    requires IsNearest(snapshot.store, snapshot.reserved, snapshot.cancelled, snapshot.intake, workers, snapshot.cursor, index)
    ensures index < |workers|
  {}

  ghost predicate IsReleased(snapshot: Snapshot, keys: seq<ReservationKey>) {
    forall key | key in keys :: key !in snapshot.reserved
  }

  lemma ReleasedShows(snapshot: Snapshot, keys: seq<ReservationKey>)
    requires forall key | key in snapshot.reserved :: key !in keys
    ensures IsReleased(snapshot, keys)
  {}

  lemma ShortTraceIsFair(workers: seq<Worker>, before: seq<Snapshot>, choices: seq<nat>)
    requires AreReservations(workers, before, choices)
    ensures forall waiting | 0 <= waiting < |workers| && |choices| >= |workers| && StaysEligible(workers, before, waiting) ::
      waiting in choices[..|workers|]
  {
    hide AreReservations, StaysEligible;
    forall waiting | 0 <= waiting < |workers| && |choices| >= |workers| && StaysEligible(workers, before, waiting)
      ensures waiting in choices[..|workers|]
    {
      ServedWithinOnePass(workers, before, choices, waiting);
      var k :| 0 <= k < |workers| && choices[k] == waiting;
      assert choices[..|workers|][k] == waiting;
    }
  }

  lemma NobodyThere(s: Store, reserved: set<ReservationKey>, cancelled: set<RunId>, intake: Intake)
    ensures NobodyWaits(s, reserved, cancelled, intake, [])
  {}

  lemma NobodyYet(s: Store, reserved: set<ReservationKey>, cancelled: set<RunId>, intake: Intake, workers: seq<Worker>, cursor: nat)
    requires cursor < |workers|
    ensures NobodyWithin(s, reserved, cancelled, intake, workers, cursor, 0)
  {}

  lemma NextCursorIsValid(index: nat, n: nat)
    requires index < n
    ensures CursorAfter(index, n) < n
  {}

  lemma SmallerMap(m: map<ReservationKey, Reservation>, key: ReservationKey)
    ensures |m - {key}| <= |m| && (m - {key}).Keys == m.Keys - {key}
  {
    if key in m {
      assert m == (m - {key})[key := m[key]];
    } else {
      assert m - {key} == m;
    }
  }

  /** A claimed slot is held: its tokens are current at the very reading of the clock that claimed it. */
  lemma ClaimedSlotIsHeld(s: Store, after: ClaimTable, worker: Worker, delivery: Delivery, position: nat, intake: Intake,
                          owner: OwnerId, ttl: nat, tokens: Tokens)
    requires ttl >= 1 && ClaimsSlot(s, after, worker, delivery, position, intake, owner, ttl, tokens)
    ensures exists slot: nat ::
      HoldsCurrently(after, Held(worker, delivery, slot, owner, tokens), intake.clock(worker.id, position, slot))
  {
    var slot :| TakesSlot(s, after, worker, delivery, position, intake, owner, ttl, tokens, slot);
    ClaimIsAllOrNone(s.claims, KeysFor(worker, delivery, slot), owner, ttl, intake.clock(worker.id, position, slot));
    assert HoldsCurrently(after, Held(worker, delivery, slot, owner, tokens), intake.clock(worker.id, position, slot));
  }
}
