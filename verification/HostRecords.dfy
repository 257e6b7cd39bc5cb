/**
 Rows of the durable fixture database and the documents requests carry.
 Every SQL table becomes a map from its primary key, every singleton table an
 optional row.  Documents are typed values: the closed JSON shape checks have
 already been made when a handler sees one, the numeric, timestamp and token
 checks are modelled.  Digests are symbolic terms over what was hashed.
 */
module HostRecords {
  import opened Wrappers
  import opened Identity
  import opened FixtureClock

  const MAX_INTEGER := 9_007_199_254_740_991
  const MAX_RECEIPTS := 64
  const MAX_RUNTIME_OPERATIONS := 64
  const MAX_ACTION_BYTES := 65_536
  const FIXTURE_TOKEN := "AAAAAAAAAAAAAAAAAAAAAAAAAAAAAAAAAAAAAAAAAAA"

  datatype Digest =
    | Supplied(text: string)
    | TokenDigest(token: string)
    | EffectDigest(operation: Id, payload: Digest)
    | ActionDigest(action: LegalAction)
    | RuntimeEffectDigest(operation: Id, actionDigest: Digest, generation: int)

  datatype Subject = LeaseSubject | FenceSubject | RevokedLeaseSubject | BootSubject

  datatype FixtureError =
    | SqlError | Invalid | Bounds | Forbidden | Conflict | Stale(subject: Subject) | HostNotReady

  /** Statuses of the recovery contract that the modelled handlers answer with. */
  datatype Status =
    | BOOT_AUTHORITY_CREATED | FENCE_ACCEPTED | LEASE_ACTIVE | LEASE_RENEWED | LEASE_REVOKED
    | INTENT_RECORDED | MAY_HAVE_BEEN_DISPATCHED | UNKNOWN | SETTLED | RECONCILED
    | DUPLICATE | CONFLICT | NOT_FOUND | REJECTED | BOUNDS_EXCEEDED
    | STALE_LEASE | LEASE_EXPIRED | STALE_BOOT | HOST_NOT_READY
    | PERSISTENCE_UNAVAILABLE | INVALID | FORBIDDEN

  function ErrorStatus(error: FixtureError): Status {
    match error
    case SqlError => PERSISTENCE_UNAVAILABLE
    case Invalid => INVALID
    case Bounds => BOUNDS_EXCEEDED
    case Forbidden => FORBIDDEN
    case Conflict => CONFLICT
    case Stale(LeaseSubject) => STALE_LEASE
    case Stale(FenceSubject) => STALE_LEASE
    case Stale(RevokedLeaseSubject) => LEASE_EXPIRED
    case Stale(BootSubject) => STALE_BOOT
    case HostNotReady => HOST_NOT_READY
  }

  // ----- fencing and leases -----

  datatype AuthorityState = FENCE_REQUIRED | READY | RESTART_REQUIRED

  /** Who an authority belongs to: the columns fence, lease and history share. */
  datatype Holder = Holder(deployment: Id, instance: Id, boot: Id, incarnation: Id)

  datatype FenceRow = FenceRow(
    holder: Holder, authorityGeneration: int, fenceId: Id, fenceGeneration: int,
    state: AuthorityState, epochCounter: int, ttl: int, renewal: int)

  /** The columns `lease` and `lease_history` have in common. */
  datatype Grant = Grant(
    leaseId: Id, epoch: int, holder: Holder, fenceId: Id,
    issuedAt: string, expiresAt: string, issuedTick: int, expiresTick: int,
    ttl: int, renewal: int, renewSequence: int, revoked: bool)

  datatype LeaseRow = LeaseRow(grant: Grant, token: string)

  datatype HistoryRow = HistoryRow(grant: Grant, tokenDigest: Digest)

  datatype Authority = Authority(
    fence: Option<FenceRow>, lease: Option<LeaseRow>, history: map<Id, HistoryRow>, clock: int)

  datatype BootDocument = BootDocument(holder: Holder, authorityGeneration: int)

  datatype FenceDocument = FenceDocument(
    fenceId: Id, holder: Holder, authorityGeneration: int, fenceGeneration: int)

  datatype LeaseDocument = LeaseDocument(
    holder: Holder, authorityGeneration: int, leaseId: Id, epoch: int, token: string,
    issuedAt: string, expiresAt: string, ttl: int, renewal: int)

  predicate InPositiveRange(n: int) { 1 <= n <= MAX_INTEGER }

  predicate InRange(n: int) { 0 <= n <= MAX_INTEGER }

  predicate ValidPolicy(ttl: int, renewal: int) {
    5 <= ttl <= 300 && 1 <= renewal <= 100 && renewal < ttl
  }

  predicate TokenChar(c: char) {
    '0' <= c <= '9' || 'A' <= c <= 'Z' || 'a' <= c <= 'z' || c == '_' || c == '-'
  }

  predicate ValidToken(token: string) {
    |token| == 43 && forall i :: 0 <= i < |token| ==> TokenChar(token[i])
  }

  predicate ValidBoot(boot: BootDocument) { InPositiveRange(boot.authorityGeneration) }

  predicate ValidFence(fence: FenceDocument) {
    InPositiveRange(fence.authorityGeneration) && InPositiveRange(fence.fenceGeneration)
  }

  predicate ValidLeaseDocument(lease: LeaseDocument) {
    && ValidToken(lease.token)
    && InPositiveRange(lease.authorityGeneration) && InPositiveRange(lease.epoch)
    && ValidTimestamp(lease.issuedAt) && ValidTimestamp(lease.expiresAt)
    && ValidPolicy(lease.ttl, lease.renewal)
  }

  // ----- sideband operation journal -----

  datatype JournalState =
    | INTENT_RECORDED | MAY_HAVE_BEEN_DISPATCHED | UNKNOWN | SETTLED | RECONCILED

  datatype Uncertainty = RECEIPT_MISSING | AUTHORITY_ROTATED

  datatype Strategy = REOBSERVE | RECEIPT_LOOKUP | QUARANTINE

  datatype TicketState = ISSUED | EFFECT_WITNESS_RECORDED | TICKET_SETTLED | TICKET_UNKNOWN

  datatype WitnessSource = HOST_GAME_THREAD | HOST_RECEIPT | AUTHORITATIVE_REOBSERVE

  datatype OriginalContext = OriginalContext(
    holder: Holder, authorityGeneration: int, leaseId: Id, epoch: int)

  datatype Boundary = Boundary(stateId: Id, generation: int, catalog: Digest)

  datatype Ticket = Ticket(
    ticketId: Id, operationId: Id, payload: Digest, boot: Id, incarnation: Id,
    epoch: int, fenceId: Id, state: TicketState, expiresAt: string)

  datatype Witness = Witness(
    witnessId: Id, operationId: Id, payload: Digest, boot: Id, incarnation: Id, fenceId: Id,
    source: WitnessSource, stateId: Id, generation: int, effect: Digest)

  datatype Receipt = Receipt(operationId: Id, payload: Digest, effectWitness: Witness)

  datatype OperationRow = OperationRow(
    payload: Digest, holder: Holder, epoch: int, fenceId: Id, state: JournalState,
    uncertainty: Option<Uncertainty>, action: string, boundary: Boundary,
    context: OriginalContext, ticket: Option<Ticket>, ticketExpiresTick: int,
    effectWitness: Option<Witness>, receipt: Option<Receipt>, strategy: Option<Strategy>)

  datatype EffectRow = EffectRow(payload: Digest, effectWitness: Witness, effect: Digest)

  datatype Journal = Journal(
    operations: map<Id, OperationRow>, queue: map<Id, Ticket>,
    effects: map<Id, EffectRow>, receipts: map<Id, Receipt>)

  datatype Operation = Operation(
    id: Id, payload: Digest, context: OriginalContext, boundary: Boundary, action: string)

  datatype OperationRef = OperationRef(id: Id, payload: Digest, context: OriginalContext)

  predicate ValidContext(context: OriginalContext) {
    InPositiveRange(context.authorityGeneration) && InPositiveRange(context.epoch)
  }

  // ----- runtime-v3 journal -----

  datatype ActionKind =
    | END_TURN | SKIP_REWARD | REST | CONFIRM_VICTORY | SAVE_QUIT | PROCEED
    | CONFIRM_SELECTION | CANCEL_SELECTION | START_RUN | SELECT_MAP_NODE | PLAY_CARD
    | CHOOSE_REWARD | SHOP_PURCHASE | SHOP_REMOVE | SMITH | SELECT_CARD | EVENT_CHOICE

  datatype LegalAction = LegalAction(
    actionId: string, kind: ActionKind, arguments: seq<(string, Option<string>)>)

  datatype Observation = Observation(stateId: Id, generation: int, turnIndex: int)

  datatype Transition = Transition(
    fromGeneration: int, toGeneration: int, stateId: Id, settledKind: ActionKind)

  datatype RuntimeResult = RuntimeResult(
    stateId: Id, generation: int, observation: Observation,
    legalActions: seq<LegalAction>, transition: Transition)

  datatype RuntimeWitness = RuntimeWitness(
    witnessId: Id, operationId: Id, action: Digest, source: WitnessSource,
    preStateId: Id, preGeneration: int, stateId: Id, generation: int, effect: Digest)

  datatype RuntimeStatus = ADMITTED | EXECUTING | UNKNOWN | SETTLED | RECONCILED | REJECTED

  datatype Session = Session(
    instance: Id, session: Id, leaseId: Id, epoch: int, stateId: Id, generation: int,
    observation: Observation, legalActions: seq<LegalAction>,
    lastOperation: Option<Id>, lastAction: Option<string>, stopped: bool)

  datatype RuntimeOperation = RuntimeOperation(
    operationId: Id, instance: Id, session: Id, leaseId: Id, epoch: int,
    action: LegalAction, actionDigest: Digest, preStateId: Id, preGeneration: int,
    status: RuntimeStatus, proof: Option<RuntimeWitness>, result: Option<RuntimeResult>)

  datatype Runtime = Runtime(
    sessions: map<Id, Session>, operations: map<Id, RuntimeOperation>, queue: set<Id>)

  datatype Database = Database(authority: Authority, journal: Journal, runtime: Runtime)

  /** A database file whose tables have just been created. */
  const EmptyDatabase := Database(
    Authority(None, None, map[], 0),
    Journal(map[], map[], map[], map[]),
    Runtime(map[], map[], {}))

  /** `synthetic_legal_actions`: the one catalogue every session carries. */
  const SyntheticLegalActions: seq<LegalAction> := [
    LegalAction("action-end-turn", END_TURN, []),
    LegalAction("action-start-run", START_RUN, [("character_id", Some("ironclad"))]),
    LegalAction("action-select-map-node", SELECT_MAP_NODE, [("node_id", Some("node-1"))]),
    LegalAction("action-play-card", PLAY_CARD, [("card_id", Some("strike")), ("target_id", None)]),
    LegalAction("action-choose-reward", CHOOSE_REWARD, [("reward_id", Some("reward-1"))]),
    LegalAction("action-shop-purchase", SHOP_PURCHASE, [("item_id", Some("item-1"))]),
    LegalAction("action-shop-remove", SHOP_REMOVE, [("card_id", Some("card-1"))]),
    LegalAction("action-event-choice", EVENT_CHOICE, [("choice_id", Some("choice-1"))])
  ]

  const SyntheticStateId := Id("synthetic-state")
}
