/** Work claims: all-or-none bundles of keys with time limits and fencing tokens. */
module Claims {
  import opened Contracts
  import opened Events

  datatype ClaimKey =
    | DeliveryKey(mailbox: AgentId, delivery: nat)
    | AgentRunKey(name: Text)
    | WorkerSlotKey(worker: AgentId, slot: nat)
    | CampaignAdvanceKey(campaign: RunId)
    | CampaignTerminalKey(campaign: RunId)
    | PairCreateKey(eval: RunId)

  type OwnerId = nat

  datatype ClaimState = Active | ClaimCompleted | ClaimReleased | ClaimFailed

  datatype Claim = Claim(owner: OwnerId, token: nat, state: ClaimState, claimedAt: int, expiresAt: int)

  type ClaimTable = map<ClaimKey, Claim>

  /** The tokens handed to one owner by one claim. */
  type Tokens = map<ClaimKey, nat>

  function TokenOf(claims: ClaimTable, key: ClaimKey): nat {
    if key in claims then claims[key].token else 0
  }

  predicate Claimable(claims: ClaimTable, keys: set<ClaimKey>, now: int) {
    forall key | key in keys && key in claims && claims[key].state.Active? :: claims[key].expiresAt <= now
  }

  function Claimed(claims: ClaimTable, keys: set<ClaimKey>, owner: OwnerId, ttl: nat, now: int): ClaimTable {
    map key | key in claims.Keys + keys ::
      if key in keys then Claim(owner, TokenOf(claims, key) + 1, Active, now, now + ttl) else claims[key]
  }

  function Granted(claims: ClaimTable, keys: set<ClaimKey>): Tokens {
    map key | key in keys :: TokenOf(claims, key) + 1
  }

  predicate KeyIsCurrent(claims: ClaimTable, key: ClaimKey, token: nat, owner: OwnerId, now: int) {
    && key in claims
    && claims[key].owner == owner
    && claims[key].token == token
    && claims[key].state.Active?
    && claims[key].expiresAt > now
  }

  predicate AreCurrent(claims: ClaimTable, tokens: Tokens, owner: OwnerId, now: int) {
    forall key | key in tokens :: KeyIsCurrent(claims, key, tokens[key], owner, now)
  }

  predicate Matches(claims: ClaimTable, key: ClaimKey, tokens: Tokens, owner: OwnerId) {
    key in claims && key in tokens && claims[key].owner == owner && claims[key].token == tokens[key]
  }

  function Finished(claims: ClaimTable, tokens: Tokens, owner: OwnerId, state: ClaimState): ClaimTable {
    map key | key in claims ::
      if Matches(claims, key, tokens, owner) then claims[key].(state := state) else claims[key]
  }

  function Renewed(claims: ClaimTable, tokens: Tokens, owner: OwnerId, ttl: nat, now: int): ClaimTable {
    map key | key in claims ::
      if Matches(claims, key, tokens, owner) then claims[key].(expiresAt := now + ttl) else claims[key]
  }

  /** Every active key that was claimed by the same owner at the same instant. */
  function BundleFailed(claims: ClaimTable, owner: OwnerId, claimedAt: int): ClaimTable {
    map key | key in claims ::
      if claims[key].owner == owner && claims[key].claimedAt == claimedAt && claims[key].state.Active?
      then claims[key].(state := ClaimFailed) else claims[key]
  }

  /** The active claims of the owner and instant of an active claim; no others fail with it. */
  function BundleOfKey(claims: ClaimTable, key: ClaimKey): set<ClaimKey> {
    if key in claims && claims[key].state.Active? then
      set k | k in claims && claims[k].owner == claims[key].owner && claims[k].claimedAt == claims[key].claimedAt
              && claims[k].state.Active?
    else {}
  }

  // ---- fencing ----

  /** Some key of the bundle has been claimed again since. */
  ghost predicate Overtaken(claims: ClaimTable, tokens: Tokens) {
    exists key :: key in tokens && tokens[key] < TokenOf(claims, key)
  }

  ghost predicate TokensGrow(before: ClaimTable, after: ClaimTable) {
    forall key :: TokenOf(before, key) <= TokenOf(after, key)
  }

  lemma OvertakenIsNotCurrent(claims: ClaimTable, tokens: Tokens, owner: OwnerId, now: int)
    requires Overtaken(claims, tokens)
    ensures !AreCurrent(claims, tokens, owner, now)
  {
    var key :| key in tokens && tokens[key] < TokenOf(claims, key);
    assert !KeyIsCurrent(claims, key, tokens[key], owner, now);
  }

  lemma OvertakenStays(before: ClaimTable, after: ClaimTable, tokens: Tokens)
    requires Overtaken(before, tokens) && TokensGrow(before, after)
    ensures Overtaken(after, tokens)
  {
    var key :| key in tokens && tokens[key] < TokenOf(before, key);
    assert TokenOf(before, key) <= TokenOf(after, key);
  }

  /** A granted bundle is current on every key, strictly above every older token of those keys. */
  lemma ClaimIsAllOrNone(claims: ClaimTable, keys: set<ClaimKey>, owner: OwnerId, ttl: nat, now: int)
    requires ttl >= 1
    ensures AreCurrent(Claimed(claims, keys, owner, ttl, now), Granted(claims, keys), owner, now)
    ensures TokensGrow(claims, Claimed(claims, keys, owner, ttl, now))
  {}

  /** Claiming any key of an older bundle overtakes that bundle. */
  lemma ReclaimOvertakes(claims: ClaimTable, keys: set<ClaimKey>, owner: OwnerId, ttl: nat, now: int,
                         older: Tokens, key: ClaimKey)
    requires key in older && key in keys && older[key] <= TokenOf(claims, key)
    ensures Overtaken(Claimed(claims, keys, owner, ttl, now), older)
  {
    assert TokenOf(Claimed(claims, keys, owner, ttl, now), key) == TokenOf(claims, key) + 1;
  }

  /** Two bundles that are both current on a key are the same claim of it, whatever clocks are used. */
  lemma CurrentHolderIsUnique(claims: ClaimTable, key: ClaimKey, first: Tokens, second: Tokens,
                              owner1: OwnerId, owner2: OwnerId, now1: int, now2: int)
    requires key in first && key in second
    requires AreCurrent(claims, first, owner1, now1) && AreCurrent(claims, second, owner2, now2)
    ensures first[key] == second[key] && owner1 == owner2
  {
    assert KeyIsCurrent(claims, key, first[key], owner1, now1);
    assert KeyIsCurrent(claims, key, second[key], owner2, now2);
  }
}
