/** Who is served next and what that takes, told on the claim rows, the mailboxes and the reservations. */
module SchedulerLaws {
  import opened Contracts
  import opened Events
  import opened Claims
  import opened Tables
  import opened ClaimLaws
  import opened Scheduler

  /** The delivery in this mailbox, the agent run and the worker's slot are all free, and the run is not barred. */
  predicate IsFree(s: Store, worker: Worker, delivery: Delivery, slot: nat, now: int) {
    && !IsHeld(s.claims, DeliveryKey(worker.mailbox, delivery.deliveryId), now)
    && !IsHeld(s.claims, AgentRunKey(delivery.agentRun), now)
    && !IsHeld(s.claims, WorkerSlotKey(worker.id, slot), now)
    && !IsBarred(s.projections, Some(delivery.runId), now)
  }

  lemma FreeSlotMeans(s: Store, worker: Worker, delivery: Delivery, slot: nat, now: int)
    ensures SlotIsFree(s, worker, delivery, slot, now) <==> IsFree(s, worker, delivery, slot, now)
  {
    hide IsHeld, IsBarred, CanClaim;
    var keys := KeysFor(worker, delivery, slot);
    ClaimIsRefusedIff(s, keys, 0, 1, now, Some(delivery.runId));
    assert forall key :: key in keys <==>
      key == DeliveryKey(worker.mailbox, delivery.deliveryId) || key == AgentRunKey(delivery.agentRun) || key == WorkerSlotKey(worker.id, slot);
  }

  /** The delivery at this place is wanted, its run goes on, it is not being worked on here, and one of the worker's slots is free for it. */
  ghost predicate CanServe(s: Store, reserved: set<ReservationKey>, cancelled: set<RunId>, intake: Intake, worker: Worker, place: nat) {
    var pending := intake.pending(worker.mailbox);
    && place < |pending|
    && (intake.allowed == None || pending[place].runId in intake.allowed.value)
    && pending[place].runId !in cancelled
    && (worker.id, pending[place].deliveryId) !in reserved
    && exists slot: nat :: slot < worker.maxConcurrency && IsFree(s, worker, pending[place], slot, intake.clock(worker.id, place, slot))
  }

  lemma ServableMeans(s: Store, reserved: set<ReservationKey>, cancelled: set<RunId>, intake: Intake, worker: Worker, place: nat)
    ensures Servable(s, reserved, cancelled, intake, worker, place) <==> CanServe(s, reserved, cancelled, intake, worker, place)
  {
    hide SlotIsFree, IsFree;
    if place < |intake.pending(worker.mailbox)| {
      forall slot: nat
        ensures SlotIsFree(s, worker, intake.pending(worker.mailbox)[place], slot, intake.clock(worker.id, place, slot))
          <==> IsFree(s, worker, intake.pending(worker.mailbox)[place], slot, intake.clock(worker.id, place, slot))
      {
        FreeSlotMeans(s, worker, intake.pending(worker.mailbox)[place], slot, intake.clock(worker.id, place, slot));
      }
    }
  }

  function Working(reserved: set<ReservationKey>, worker: AgentId): set<ReservationKey> {
    set key | key in reserved && key.0 == worker
  }

  /** The worker has a place left and something it can be served. */
  ghost predicate CanBeServed(s: Store, reserved: set<ReservationKey>, cancelled: set<RunId>, intake: Intake, worker: Worker) {
    |Working(reserved, worker.id)| < worker.maxConcurrency && exists place: nat :: CanServe(s, reserved, cancelled, intake, worker, place)
  }

  lemma ReservableMeans(s: Store, reserved: set<ReservationKey>, cancelled: set<RunId>, intake: Intake, worker: Worker)
    ensures Reservable(s, reserved, cancelled, intake, worker) <==> CanBeServed(s, reserved, cancelled, intake, worker)
  {
    hide Servable, CanServe;
    assert Load(reserved, worker.id) == |Working(reserved, worker.id)|;
    forall place: nat
      ensures Servable(s, reserved, cancelled, intake, worker, place) <==> CanServe(s, reserved, cancelled, intake, worker, place)
      ensures Servable(s, reserved, cancelled, intake, worker, place) ==> place < |PendingOf(intake, worker)|
    {
      ServableMeans(s, reserved, cancelled, intake, worker, place);
      ServablePlaces(s, reserved, cancelled, intake, worker, place);
    }
  }

  lemma ServablePlaces(s: Store, reserved: set<ReservationKey>, cancelled: set<RunId>, intake: Intake, worker: Worker, place: nat)
    ensures Servable(s, reserved, cancelled, intake, worker, place) ==> place < |PendingOf(intake, worker)|
  {}

  /** The workers in registration order, starting at the cursor and going around. */
  function InTurn(workers: seq<Worker>, cursor: nat): seq<Worker>
    requires cursor <= |workers|
  {
    workers[cursor..] + workers[..cursor]
  }

  function TurnOf(cursor: nat, index: nat, n: nat): nat
    requires cursor < n && index < n
  {
    if cursor <= index then index - cursor else n - cursor + index
  }

  function PlaceOf(cursor: nat, turn: nat, n: nat): (place: nat)
    requires cursor < n && turn < n
    ensures place < n
  {
    if cursor + turn < n then cursor + turn else cursor + turn - n
  }

  /** The worker chosen is the first in turn that can be served. */
  lemma NearestIsFirstInTurn(s: Store, reserved: set<ReservationKey>, cancelled: set<RunId>, intake: Intake, workers: seq<Worker>,
                             cursor: nat, index: nat)
    requires cursor < |workers|
    ensures IsNearest(s, reserved, cancelled, intake, workers, cursor, index) <==>
      && index < |workers|
      && var turn := TurnOf(cursor, index, |workers|);
         && CanBeServed(s, reserved, cancelled, intake, InTurn(workers, cursor)[turn])
         && forall earlier | 0 <= earlier < turn :: !CanBeServed(s, reserved, cancelled, intake, InTurn(workers, cursor)[earlier])
  {
    hide Reservable, CanBeServed;
    var order := InTurn(workers, cursor);
    forall worker
      ensures Reservable(s, reserved, cancelled, intake, worker) <==> CanBeServed(s, reserved, cancelled, intake, worker)
    {
      ReservableMeans(s, reserved, cancelled, intake, worker);
    }
    assert forall k | 0 <= k < |workers| :: TurnOf(cursor, k, |workers|) == Distance(cursor, k, |workers|);
    assert forall k | 0 <= k < |workers| :: order[TurnOf(cursor, k, |workers|)] == workers[k];
    forall turn | 0 <= turn < |workers|
      ensures order[turn] == workers[PlaceOf(cursor, turn, |workers|)]
      ensures TurnOf(cursor, PlaceOf(cursor, turn, |workers|), |workers|) == turn
    {}
  }

  /**
    What is reserved: the first delivery the worker can be served, under its first free slot, with the three
    keys claimed for this scheduler from the moment the slot was tried, and no other claim touched.
   */
  lemma ServedMeans(s: Store, after: ClaimTable, reserved: set<ReservationKey>, cancelled: set<RunId>, intake: Intake,
                    worker: Worker, owner: OwnerId, ttl: nat, found: Selected)
    requires IsServed(s, after, reserved, cancelled, intake, worker, owner, ttl, found)
    ensures CanServe(s, reserved, cancelled, intake, worker, found.position)
    ensures forall place: nat | place < found.position :: !CanServe(s, reserved, cancelled, intake, worker, place)
    ensures found.delivery == intake.pending(worker.mailbox)[found.position]
    ensures exists slot: nat ::
      && slot < worker.maxConcurrency
      && IsFree(s, worker, found.delivery, slot, intake.clock(worker.id, found.position, slot))
      && (forall k: nat | k < slot :: !IsFree(s, worker, found.delivery, k, intake.clock(worker.id, found.position, k)))
      && IsClaimedAt(s.claims, after, worker, found.delivery, slot, owner, intake.clock(worker.id, found.position, slot), ttl, found.tokens)
  {
    hide Servable, CanServe, TakesSlot, IsFree, IsClaimedAt;
    forall place: nat
      ensures Servable(s, reserved, cancelled, intake, worker, place) <==> CanServe(s, reserved, cancelled, intake, worker, place)
    {
      ServableMeans(s, reserved, cancelled, intake, worker, place);
    }
    ServablePlaces(s, reserved, cancelled, intake, worker, found.position);
    var slot :| TakesSlot(s, after, worker, found.delivery, found.position, intake, owner, ttl, found.tokens, slot);
    SlotTakenMeans(s, after, worker, found.delivery, found.position, intake, owner, ttl, found.tokens, slot);
  }

  predicate IsOfBundle(worker: Worker, delivery: Delivery, slot: nat, key: ClaimKey) {
    key == DeliveryKey(worker.mailbox, delivery.deliveryId) || key == AgentRunKey(delivery.agentRun) || key == WorkerSlotKey(worker.id, slot)
  }

  /** Exactly the three keys of the bundle are newly claimed; every other row is as it was. */
  ghost predicate IsClaimedAt(before: ClaimTable, after: ClaimTable, worker: Worker, delivery: Delivery, slot: nat, owner: OwnerId, now: int,
                              ttl: nat, tokens: Tokens)
  {
    && (forall key :: key in tokens <==> IsOfBundle(worker, delivery, slot, key))
    && (forall key | key in tokens ::
          && key in after && after[key] == Claim(owner, tokens[key], Active, now, now + ttl)
          && tokens[key] == if key in before then before[key].token + 1 else 1)
    && (forall key | key !in tokens :: (key in after <==> key in before) && (key in before ==> after[key] == before[key]))
  }

  lemma SlotTakenMeans(s: Store, after: ClaimTable, worker: Worker, delivery: Delivery, place: nat, intake: Intake, owner: OwnerId, ttl: nat,
                       tokens: Tokens, slot: nat)
    requires TakesSlot(s, after, worker, delivery, place, intake, owner, ttl, tokens, slot)
    ensures slot < worker.maxConcurrency && IsFree(s, worker, delivery, slot, intake.clock(worker.id, place, slot))
    ensures forall k: nat | k < slot :: !IsFree(s, worker, delivery, k, intake.clock(worker.id, place, k))
    ensures IsClaimedAt(s.claims, after, worker, delivery, slot, owner, intake.clock(worker.id, place, slot), ttl, tokens)
  {
    hide IsFree, SlotIsFree;
    forall k: nat
      ensures SlotIsFree(s, worker, delivery, k, intake.clock(worker.id, place, k))
        <==> IsFree(s, worker, delivery, k, intake.clock(worker.id, place, k))
    {
      FreeSlotMeans(s, worker, delivery, k, intake.clock(worker.id, place, k));
    }
    assert forall key :: key in KeysFor(worker, delivery, slot) <==> IsOfBundle(worker, delivery, slot, key);
  }

  /** After a reservation the next one starts with the worker registered after the one served. */
  lemma CursorMovesOn(index: nat, n: nat)
    requires index < n
    ensures CursorAfter(index, n) == if index + 1 < n then index + 1 else 0
  {
    if index + 1 < n {
      assert (index + 1) % n == index + 1;
    }
  }

  /** Cancelling a run marks exactly its reservations; none is added or dropped. */
  lemma CancelMarksTheRun(inFlight: map<ReservationKey, Reservation>, run: RunId)
    ensures forall key :: key in RunReservations(inFlight, run) <==> key in inFlight && inFlight[key].runId == run
    ensures ContextsCancelled(inFlight, run).Keys == inFlight.Keys
    ensures forall key | key in inFlight ::
      && ContextsCancelled(inFlight, run)[key].cancelled == (inFlight[key].cancelled || inFlight[key].runId == run)
      && ContextsCancelled(inFlight, run)[key].(cancelled := false) == inFlight[key].(cancelled := false)
  {
    assert ContextsCancelled(inFlight, run).Keys == inFlight.Keys;
  }
}
