/**
  The one business write (internal/business/action_store.go, action_contract.go): an idempotent
  update of a ticket, guarded by the version vector its approval was based on. A transaction is
  one atomic step; times are Unix microseconds. JSON text, the hash, signature verification and
  the claim vocabulary are fields of `Env`.
*/
module TicketResolution {
  import opened Wrappers
  import opened Identity
  import opened BusinessModel

  const SAFE_INTEGER := 9007199254740991
  const RETENTION := 30 * 24 * 3600 * 1_000_000
  const OPERATION := "apply_ticket_resolution"

  datatype ActionError = InvalidArgument | NotFound | ActionConflict | ActionForbidden | AuthorizationExpired

  datatype Parameters = Parameters(ticketId: string, decision: string, action: string, conclusion: string,
                                   requestedFields: seq<string>, target: string, summary: string, claims: string, evidenceRefs: seq<string>)

  datatype Times = Times(createdAt: int, decidedAt: int, authorizedAt: int, permissionExpiresAt: int, expiresAt: int, runDeadline: int)

  datatype Authorization = Authorization(
    schemaVersion: int, keyId: string, operation: string, tenantId: string, businessRequestId: string, operationId: string,
    runId: string, approvalId: string, actorId: string, proposalHash: string, parametersHash: string, snapshotId: string,
    snapshotHash: string, vector: VersionVector, times: Times)

  datatype SignedAction = SignedAction(auth: Authorization, parameters: Parameters, signature: string)

  datatype Binding = Binding(tenantId: string, operationId: string, businessRequestId: string, authorizationHash: string,
                           proposalHash: string, parametersHash: string, approvalId: string, ticketId: string)

  /** `binding` groups the fields copied from the authorization. */
  datatype Receipt = Receipt(schemaVersion: int, binding: Binding, beforeRevision: int, afterRevision: int, ticketStatus: string,
                             appliedAt: int, retainUntil: int, receiptHash: string)

  datatype TrustedKey = TrustedKey(publicKey: string, tenants: set<string>)

  datatype Env = Env(hash: string -> string, vectorText: VersionVector -> string, parametersText: Parameters -> string,
                     receiptText: Receipt -> string, claimsValid: Parameters -> bool, verifies: (string, string, string) -> bool,
                     trusted: map<string, TrustedKey>)

  // ---------- validity and digests ----------

  predicate ValidParameters(env: Env, p: Parameters) {
    && ValidIdentifier(p.ticketId) && p.decision == "proposal" && 1 <= |p.summary| <= 8192
    && 1 <= |p.evidenceRefs| <= 32 && |p.requestedFields| <= 5
    && (if p.action == "record_conclusion" then p.target in {"open", "informational_only", "escalated", "awaiting_information"}
        else (p.action == "request_information" && p.target == "awaiting_information") || (p.action == "escalate" && p.target == "escalated"))
    && p.conclusion in {"on_time", "delayed", "disputed", "insufficient", "conflicting"}
    && env.claimsValid(p) && |env.parametersText(p)| <= 16384
  }

  predicate SafeTime(t: int) {
    1 <= t <= SAFE_INTEGER
  }

  predicate ValidTimes(t: Times) {
    && SafeTime(t.createdAt) && SafeTime(t.decidedAt) && SafeTime(t.authorizedAt) && SafeTime(t.permissionExpiresAt)
    && SafeTime(t.expiresAt) && SafeTime(t.runDeadline)
    && t.createdAt <= t.decidedAt <= t.authorizedAt < t.expiresAt <= t.permissionExpiresAt <= t.runDeadline
  }

  predicate ValidRelation(r: Relation) {
    && r.exists' == r.revision.Some? && (r.exists' ==> r.id.Some?)
    && (r.id.Some? ==> ValidIdentifier(r.id.value)) && (r.revision.Some? ==> 1 <= r.revision.value <= SAFE_INTEGER)
  }

  predicate ValidVector(v: VersionVector) {
    && v.schemaVersion == 1 && ValidIdentifier(v.ticketId) && 1 <= v.ticketRevision < SAFE_INTEGER
    && ValidRelation(v.order) && ValidRelation(v.delivery) && (!v.order.exists' ==> v.delivery.id.None?)
    && ValidIdentifier(v.policy.version) && 1 <= v.policy.revision <= SAFE_INTEGER && ValidHash(v.policy.corpus)
    && ValidUUID(v.index.id) && ValidHash(v.index.profileHash) && ValidHash(v.index.contentHash)
  }

  predicate ValidAuthorization(a: Authorization) {
    && a.schemaVersion == 1 && a.operation == OPERATION
    && ValidIdentifier(a.keyId) && ValidIdentifier(a.tenantId) && ValidIdentifier(a.actorId)
    && ValidUUID(a.businessRequestId) && ValidUUID(a.operationId) && ValidUUID(a.runId) && ValidUUID(a.approvalId) && ValidUUID(a.snapshotId)
    && ValidHash(a.parametersHash) && ValidHash(a.proposalHash) && ValidHash(a.snapshotHash)
    && ValidTimes(a.times) && ValidVector(a.vector)
  }

  function AuthorizationFields(a: Authorization, vectorHash: string): seq<string> {
    ["jobforge.business.authorization.v1", "1", a.keyId, a.operation, a.tenantId, a.businessRequestId, FormatInt(a.times.createdAt),
     a.operationId, a.runId, a.approvalId, a.actorId, FormatInt(a.times.decidedAt), a.proposalHash, a.parametersHash, a.snapshotId,
     a.snapshotHash, vectorHash, FormatInt(a.times.authorizedAt), FormatInt(a.times.permissionExpiresAt), FormatInt(a.times.expiresAt),
     FormatInt(a.times.runDeadline)]
  }

  function AuthorizationHash(env: Env, a: Authorization): string {
    var vectorHash := Fingerprint(env.hash, ["jobforge.business.version-vector.v1", "1", env.vectorText(a.vector)]);
    Fingerprint(env.hash, AuthorizationFields(a, vectorHash))
  }

  function ParametersHash(env: Env, p: Parameters): string {
    Fingerprint(env.hash, ["jobforge.business.parameters.v1", "1", env.parametersText(p)])
  }

  function ReceiptHash(env: Env, r: Receipt): string {
    Fingerprint(env.hash, ["jobforge.business.receipt.v1", "1", env.receiptText(r.(receiptHash := ""))])
  }

  predicate Verified(env: Env, action: SignedAction, publicKey: string) {
    && ValidParameters(env, action.parameters) && ParametersHash(env, action.parameters) == action.auth.parametersHash
    && action.parameters.ticketId == action.auth.vector.ticketId
    && ValidAuthorization(action.auth) && env.verifies(publicKey, AuthorizationHash(env, action.auth), action.signature)
  }

  function BindingOf(env: Env, action: SignedAction): Binding {
    var a := action.auth;
    Binding(a.tenantId, a.operationId, a.businessRequestId, AuthorizationHash(env, a), a.proposalHash, a.parametersHash, a.approvalId,
           action.parameters.ticketId)
  }

  /** A receipt that answers this very action. */
  predicate ValidReceipt(env: Env, r: Receipt, action: SignedAction) {
    var a := action.auth;
    && ValidAuthorization(a) && r.schemaVersion == 1 && r.binding == BindingOf(env, action)
    && r.ticketStatus == action.parameters.target && r.beforeRevision == a.vector.ticketRevision && r.afterRevision == r.beforeRevision + 1
    && a.times.authorizedAt <= r.appliedAt < a.times.expiresAt && r.retainUntil <= SAFE_INTEGER
    && r.retainUntil >= r.appliedAt + RETENTION && r.receiptHash == ReceiptHash(env, r)
  }

  // ---------- the store ----------

  datatype Key = Key(tenant: string, id: string)

  datatype Snapshot = Snapshot(tenantId: string, contentHash: string, facts: Facts)

  datatype PublishedIndex = PublishedIndex(index: Index, policyVersion: string, corpus: string, published: bool)

  datatype Stored = Stored(authorizationHash: string, businessRequestId: string, receipt: Receipt)

  datatype Tables = Tables(tickets: map<Key, Ticket>, orders: map<Key, Order>, deliveries: map<Key, Delivery>, policies: map<Key, Policy>,
                           indexes: map<Key, PublishedIndex>, snapshots: map<Key, Snapshot>, receipts: map<Key, Stored>)

  function Lookup<T>(table: map<Key, T>, tenant: string, id: Option<string>): Option<T> {
    if id.Some? && Key(tenant, id.value) in table then Some(table[Key(tenant, id.value)]) else None
  }

  /** The rows a ticket refers to now, read again from the sources. */
  function CurrentFacts(s: Tables, tenant: string, ticketId: string, indexId: string): Option<Facts> {
    if Key(tenant, ticketId) !in s.tickets then None
    else
      var ticket := s.tickets[Key(tenant, ticketId)];
      var order := Lookup(s.orders, tenant, ticket.orderId);
      var delivery := if order.None? then None else Lookup(s.deliveries, tenant, order.value.deliveryId);
      if (delivery.Some? && delivery.value.orderId != order.value.orderId) || Key(tenant, ticket.policyVersion) !in s.policies
         || Key(tenant, indexId) !in s.indexes then None
      else
        var policy, published := s.policies[Key(tenant, ticket.policyVersion)], s.indexes[Key(tenant, indexId)];
        if !published.published || published.policyVersion != policy.version || published.corpus != policy.corpus then None
        else Some(Facts(ticket, order, delivery, policy, published.index))
  }

  /** The snapshot the approval was based on is still what it was approved as. */
  predicate SnapshotAgrees(s: Tables, action: SignedAction) {
    var a, p := action.auth, action.parameters;
    && Key(a.tenantId, a.snapshotId) in s.snapshots
    && var snapshot := s.snapshots[Key(a.tenantId, a.snapshotId)];
    && snapshot.contentHash == a.snapshotHash && snapshot.tenantId == a.tenantId && VectorOf(snapshot.facts) == a.vector
    && snapshot.facts.ticket.ticketId == p.ticketId
    && (p.action == "record_conclusion" ==> p.target == snapshot.facts.ticket.status)
  }

  function CurrentTicket(s: Tables, action: SignedAction): Option<Ticket> {
    if !SnapshotAgrees(s, action) then None
    else
      var facts := CurrentFacts(s, action.auth.tenantId, action.parameters.ticketId, action.auth.vector.index.id);
      if facts.None? || VectorOf(facts.value) != action.auth.vector then None else Some(facts.value.ticket)
  }

  function Resolved(ticket: Ticket, p: Parameters): Ticket {
    ticket.(revision := ticket.revision + 1, status := if p.action == "record_conclusion" then ticket.status else p.target)
  }

  function NewReceipt(env: Env, action: SignedAction, ticket: Ticket, now: int): Receipt {
    var r := Receipt(1, BindingOf(env, action), ticket.revision, ticket.revision + 1, Resolved(ticket, action.parameters).status,
                     now, now + RETENTION, "");
    r.(receiptHash := ReceiptHash(env, r))
  }

  predicate RequestUsed(s: Tables, tenant: string, businessRequestId: string) {
    exists k :: k in s.receipts && k.tenant == tenant && s.receipts[k].businessRequestId == businessRequestId
  }

  /** Everything that can refuse a first write, in the order it is checked. */
  function FirstRefusal(env: Env, s: Tables, tenant: string, action: SignedAction, now: int): Option<ActionError> {
    var a := action.auth;
    if a.keyId !in env.trusted || tenant !in env.trusted[a.keyId].tenants || !Verified(env, action, env.trusted[a.keyId].publicKey)
    then Some(ActionForbidden)
    else if CurrentTicket(s, action).None? then Some(ActionConflict)
    else if now >= a.times.expiresAt then Some(AuthorizationExpired)
    else if now < a.times.authorizedAt then Some(ActionForbidden)
    else if RequestUsed(s, tenant, a.businessRequestId) then Some(ActionConflict)
    else None
  }

  function Written(env: Env, s: Tables, action: SignedAction, ticket: Ticket, now: int): Tables {
    var a, receipt := action.auth, NewReceipt(env, action, ticket, now);
    s.(tickets := s.tickets[Key(a.tenantId, ticket.ticketId) := Resolved(ticket, action.parameters)],
       receipts := s.receipts[Key(a.tenantId, a.operationId) := Stored(AuthorizationHash(env, a), a.businessRequestId, receipt)])
  }

  function Replayed(env: Env, stored: Stored, action: SignedAction): Result<Receipt, ActionError> {
    if stored.authorizationHash != AuthorizationHash(env, action.auth) || ParametersHash(env, action.parameters) != action.auth.parametersHash
       || !ValidReceipt(env, stored.receipt, action)
    then Failure(ActionConflict)
    else Success(stored.receipt)
  }

  function Applied(env: Env, s: Tables, tenant: string, action: SignedAction, now: int): (Tables, Result<Receipt, ActionError>) {
    var a := action.auth;
    if tenant != a.tenantId then (s, Failure(NotFound))
    else if !ValidAuthorization(a) || !ValidParameters(env, action.parameters) then (s, Failure(InvalidArgument))
    else if Key(tenant, a.operationId) in s.receipts then (s, Replayed(env, s.receipts[Key(tenant, a.operationId)], action))
    else
      var refusal := FirstRefusal(env, s, tenant, action, now);
      if refusal.Some? then (s, Failure(refusal.value))
      else
        var ticket := CurrentTicket(s, action).value;
        (Written(env, s, action, ticket, now), Success(NewReceipt(env, action, ticket, now)))
  }

  /** The business database, one transaction per method. */
  class Store {
    var tickets: map<Key, Ticket>
    var orders: map<Key, Order>
    var deliveries: map<Key, Delivery>
    var policies: map<Key, Policy>
    var indexes: map<Key, PublishedIndex>
    var snapshots: map<Key, Snapshot>
    var receipts: map<Key, Stored>

    constructor ()
      ensures View() == Tables(map[], map[], map[], map[], map[], map[], map[])
    {
      tickets, orders, deliveries, policies, indexes, snapshots, receipts := map[], map[], map[], map[], map[], map[], map[];
    }

    function View(): Tables
      reads this
    {
      Tables(tickets, orders, deliveries, policies, indexes, snapshots, receipts)
    }

    method CurrentActionTicket(action: SignedAction) returns (ticket: Option<Ticket>)
      ensures ticket == CurrentTicket(View(), action)
    {
      var a, p := action.auth, action.parameters;
      if !SnapshotAgrees(View(), action) || Key(a.tenantId, p.ticketId) !in tickets {
        return None;
      }
      var current, order, delivery := tickets[Key(a.tenantId, p.ticketId)], None, None;
      if current.orderId != None {
        order := Lookup(orders, a.tenantId, current.orderId);
        if order != None && order.value.deliveryId != None {
          delivery := Lookup(deliveries, a.tenantId, order.value.deliveryId);
          if delivery != None && delivery.value.orderId != order.value.orderId {
            return None;
          }
        }
      }
      if Key(a.tenantId, current.policyVersion) !in policies || Key(a.tenantId, a.vector.index.id) !in indexes {
        return None;
      }
      var policy, published := policies[Key(a.tenantId, current.policyVersion)], indexes[Key(a.tenantId, a.vector.index.id)];
      if !published.published || published.policyVersion != policy.version || published.corpus != policy.corpus {
        return None;
      }
      if VectorOf(Facts(current, order, delivery, policy, published.index)) != a.vector {
        return None;
      }
      return Some(current);
    }

    method PrepareReceipt(env: Env, action: SignedAction, ticket: Ticket, updated: Ticket, now: int) returns (receipt: Receipt)
      requires updated == Resolved(ticket, action.parameters)
      ensures receipt == NewReceipt(env, action, ticket, now)
    {
      receipt := Receipt(1, BindingOf(env, action), ticket.revision, updated.revision, updated.status, now, now + RETENTION, "");
      receipt := receipt.(receiptHash := ReceiptHash(env, receipt));
    }

    /** The ticket row is written before the receipt row; a conflicting receipt rolls the ticket back. */
    method Insert(env: Env, action: SignedAction, ticket: Ticket, now: int) returns (result: Result<Receipt, ActionError>)
      modifies this
      ensures var a, before := action.auth, old(View());
              if RequestUsed(before, a.tenantId, a.businessRequestId) then View() == before && result == Failure(ActionConflict)
              else View() == Written(env, before, action, ticket, now) && result == Success(NewReceipt(env, action, ticket, now))
    {
      var a, saved, updated := action.auth, tickets, ticket;
      updated := updated.(revision := updated.revision + 1);
      if action.parameters.action != "record_conclusion" {
        updated := updated.(status := action.parameters.target);
      }
      tickets := tickets[Key(a.tenantId, ticket.ticketId) := updated];
      var receipt := PrepareReceipt(env, action, ticket, updated, now);
      if exists k :: k in receipts && k.tenant == a.tenantId && receipts[k].businessRequestId == a.businessRequestId {
        tickets := saved;
        return Failure(ActionConflict);
      }
      receipts := receipts[Key(a.tenantId, a.operationId) := Stored(AuthorizationHash(env, a), a.businessRequestId, receipt)];
      return Success(receipt);
    }

    method ApplyResolution(env: Env, tenant: string, action: SignedAction, now: int) returns (result: Result<Receipt, ActionError>)
      modifies this
      ensures (View(), result) == Applied(env, old(View()), tenant, action, now)
    {
      var a := action.auth;
      if tenant != a.tenantId {
        return Failure(NotFound);
      }
      if !ValidAuthorization(a) || !ValidParameters(env, action.parameters) {
        return Failure(InvalidArgument);
      }
      if Key(tenant, a.operationId) in receipts {
        return Replayed(env, receipts[Key(tenant, a.operationId)], action);
      }
      if a.keyId !in env.trusted || tenant !in env.trusted[a.keyId].tenants || !Verified(env, action, env.trusted[a.keyId].publicKey) {
        return Failure(ActionForbidden);
      }
      var ticket := CurrentActionTicket(action);
      if ticket == None {
        return Failure(ActionConflict);
      }
      if now >= a.times.expiresAt {
        return Failure(AuthorizationExpired);
      }
      if now < a.times.authorizedAt {
        return Failure(ActionForbidden);
      }
      result := Insert(env, action, ticket.value, now);
    }
  }

  // ---------- the sources change too ----------

  /** A source row may be inserted, kept, or replaced by one of a higher revision; published facts and snapshots never change. */
  datatype Event =
    | Apply(tenant: string, action: SignedAction, now: int)
    | PutTicket(ticket: Ticket) | PutOrder(order: Order) | PutDelivery(delivery: Delivery)
    | PutPolicy(tenantId: string, policy: Policy) | PutIndex(tenantId: string, index: PublishedIndex)
    | Capture(tenantId: string, id: string, contentHash: string, ticketId: string, indexId: string)

  predicate NewerTicket(old': Ticket, ticket: Ticket) { ticket == old' || ticket.revision > old'.revision }
  predicate NewerOrder(old': Order, order: Order) { order == old' || order.revision > old'.revision }
  predicate NewerDelivery(old': Delivery, d: Delivery) { d == old' || d.aggregateRevision > old'.aggregateRevision }

  function WithTicket(s: Tables, t: Ticket): Tables {
    var k := Key(t.tenantId, t.ticketId);
    if k in s.tickets && !NewerTicket(s.tickets[k], t) then s else s.(tickets := s.tickets[k := t])
  }

  function WithOrder(s: Tables, o: Order): Tables {
    var k := Key(o.tenantId, o.orderId);
    if k in s.orders && !NewerOrder(s.orders[k], o) then s else s.(orders := s.orders[k := o])
  }

  function WithDelivery(s: Tables, d: Delivery): Tables {
    var k := Key(d.tenantId, d.deliveryId);
    if k in s.deliveries && !NewerDelivery(s.deliveries[k], d) then s else s.(deliveries := s.deliveries[k := d])
  }

  function WithSnapshot(s: Tables, tenant: string, id: string, hash: string, ticketId: string, indexId: string): Tables {
    var facts := CurrentFacts(s, tenant, ticketId, indexId);
    if Key(tenant, id) in s.snapshots || facts.None? then s
    else s.(snapshots := s.snapshots[Key(tenant, id) := Snapshot(tenant, hash, facts.value)])
  }

  function Next(env: Env, s: Tables, e: Event): Tables {
    match e
    case Apply(tenant, action, now) => Applied(env, s, tenant, action, now).0
    case PutTicket(t) => WithTicket(s, t)
    case PutOrder(o) => WithOrder(s, o)
    case PutDelivery(d) => WithDelivery(s, d)
    case PutPolicy(tenant, p) =>
      if Key(tenant, p.version) in s.policies then s else s.(policies := s.policies[Key(tenant, p.version) := p])
    case PutIndex(tenant, i) =>
      if Key(tenant, i.index.id) in s.indexes then s else s.(indexes := s.indexes[Key(tenant, i.index.id) := i])
    case Capture(tenant, id, hash, ticketId, indexId) => WithSnapshot(s, tenant, id, hash, ticketId, indexId)
  }

  const EMPTY := Tables(map[], map[], map[], map[], map[], map[], map[])

  function Replay(env: Env, s: Tables, events: seq<Event>): Tables {
    if events == [] then s else Next(env, Replay(env, s, events[..|events| - 1]), events[|events| - 1])
  }

  // ---------- equal revision means equal content ----------

  ghost predicate TicketRows(rows: map<Key, Ticket>) {
    forall k :: k in rows ==> rows[k].ticketId == k.id
  }

  ghost predicate OrderRows(rows: map<Key, Order>) {
    forall k :: k in rows ==> rows[k].orderId == k.id
  }

  ghost predicate DeliveryRows(rows: map<Key, Delivery>) {
    forall k :: k in rows ==> rows[k].deliveryId == k.id
  }

  ghost predicate Rows(s: Tables) {
    TicketRows(s.tickets) && OrderRows(s.orders) && DeliveryRows(s.deliveries)
  }

  ghost predicate ArchivedTicket(s: Tables, k: Key) requires k in s.snapshots {
    var t := s.snapshots[k].facts.ticket;
    Key(k.tenant, t.ticketId) in s.tickets && NewerTicket(t, s.tickets[Key(k.tenant, t.ticketId)])
  }

  ghost predicate ArchivedOrder(s: Tables, k: Key) requires k in s.snapshots {
    var o := s.snapshots[k].facts.order;
    o.Some? ==> Key(k.tenant, o.value.orderId) in s.orders && NewerOrder(o.value, s.orders[Key(k.tenant, o.value.orderId)])
  }

  ghost predicate ArchivedDelivery(s: Tables, k: Key) requires k in s.snapshots {
    var d := s.snapshots[k].facts.delivery;
    d.Some? ==> Key(k.tenant, d.value.deliveryId) in s.deliveries && NewerDelivery(d.value, s.deliveries[Key(k.tenant, d.value.deliveryId)])
  }

  /** The rows of one snapshot belong together. */
  predicate Coherent(f: Facts) {
    && (f.order.Some? ==> f.ticket.orderId == Some(f.order.value.orderId))
    && (f.delivery.Some? ==> f.order.Some? && f.order.value.deliveryId == Some(f.delivery.value.deliveryId))
  }

  /** A source row is a snapshot's own copy or has a higher revision. */
  ghost predicate Archived(s: Tables, k: Key) requires k in s.snapshots {
    ArchivedTicket(s, k) && ArchivedOrder(s, k) && ArchivedDelivery(s, k) && Coherent(s.snapshots[k].facts)
  }

  ghost predicate Archive(s: Tables) {
    Rows(s) && forall k :: k in s.snapshots ==> Archived(s, k)
  }

  ghost predicate TicketsGrow(rows: map<Key, Ticket>, rows': map<Key, Ticket>) {
    forall k :: k in rows ==> k in rows' && NewerTicket(rows[k], rows'[k])
  }

  ghost predicate OrdersGrow(rows: map<Key, Order>, rows': map<Key, Order>) {
    forall k :: k in rows ==> k in rows' && NewerOrder(rows[k], rows'[k])
  }

  ghost predicate DeliveriesGrow(rows: map<Key, Delivery>, rows': map<Key, Delivery>) {
    forall k :: k in rows ==> k in rows' && NewerDelivery(rows[k], rows'[k])
  }

  /** Rows are only added or replaced by newer ones. */
  ghost predicate Grows(s: Tables, s': Tables) {
    TicketsGrow(s.tickets, s'.tickets) && OrdersGrow(s.orders, s'.orders) && DeliveriesGrow(s.deliveries, s'.deliveries)
  }

  lemma ArchivedGrows(s: Tables, s': Tables, k: Key)
    requires Grows(s, s') && k in s.snapshots && k in s'.snapshots && s'.snapshots[k] == s.snapshots[k] && Archived(s, k)
    ensures Archived(s', k)
  {
  }

  lemma ArchiveGrows(s: Tables, s': Tables)
    requires Archive(s) && Grows(s, s') && Rows(s') && s'.snapshots == s.snapshots
    ensures Archive(s')
  {
    forall k | k in s'.snapshots ensures Archived(s', k) {
      ArchivedGrows(s, s', k);
    }
  }

  lemma CurrentTicketRow(s: Tables, action: SignedAction)
    requires Rows(s) && CurrentTicket(s, action).Some?
    ensures var ticket := CurrentTicket(s, action).value;
            && ticket.ticketId == action.parameters.ticketId && ticket.revision == action.auth.vector.ticketRevision
            && Key(action.auth.tenantId, ticket.ticketId) in s.tickets
            && s.tickets[Key(action.auth.tenantId, ticket.ticketId)] == ticket
  {
  }

  predicate Wrote(env: Env, s: Tables, tenant: string, action: SignedAction, now: int) {
    Applied(env, s, tenant, action, now).0 != s
  }

  /** The whole effect of an accepted write: one ticket row, one new receipt row, nothing else. */
  ghost predicate OneWrite(env: Env, s: Tables, s': Tables, action: SignedAction, receipt: Receipt, now: int) {
    var a := action.auth;
    var k, op := Key(a.tenantId, action.parameters.ticketId), Key(a.tenantId, a.operationId);
    && k in s.tickets && op !in s.receipts && s.tickets[k].ticketId == k.id && s.tickets[k].revision == a.vector.ticketRevision
    && s' == s.(tickets := s.tickets[k := Resolved(s.tickets[k], action.parameters)],
                receipts := s.receipts[op := Stored(AuthorizationHash(env, a), a.businessRequestId, receipt)])
    && receipt == NewReceipt(env, action, s.tickets[k], now)
    && !RequestUsed(s, a.tenantId, a.businessRequestId)
  }

  /** A call either leaves the store alone or is exactly one such write. */
  lemma AppliedIsOneWrite(env: Env, s: Tables, tenant: string, action: SignedAction, now: int)
    requires Rows(s)
    ensures var (s', result) := Applied(env, s, tenant, action, now);
            s' == s || (tenant == action.auth.tenantId && result.Success? && OneWrite(env, s, s', action, result.value, now))
  {
    if CurrentTicket(s, action).Some? {
      CurrentTicketRow(s, action);
    }
  }

  lemma OneWriteGrows(env: Env, s: Tables, s': Tables, action: SignedAction, receipt: Receipt, now: int)
    requires Rows(s) && OneWrite(env, s, s', action, receipt, now)
    ensures Grows(s, s') && Rows(s')
  {
    var k := Key(action.auth.tenantId, action.parameters.ticketId);
    GrowsReflexive(s);
    PutTicketGrows(s.tickets, k, Resolved(s.tickets[k], action.parameters));
  }

  lemma GrowsReflexive(s: Tables)
    ensures Grows(s, s)
  {
  }

  lemma AppliedGrows(env: Env, s: Tables, tenant: string, action: SignedAction, now: int)
    requires Rows(s)
    ensures var s' := Applied(env, s, tenant, action, now).0;
            Grows(s, s') && Rows(s') && s'.snapshots == s.snapshots
  {
    var (s', result) := Applied(env, s, tenant, action, now);
    AppliedIsOneWrite(env, s, tenant, action, now);
    if s' == s {
      GrowsReflexive(s);
    } else {
      OneWriteGrows(env, s, s', action, result.value, now);
    }
  }

  lemma CapturedCoherent(s: Tables, tenant: string, ticketId: string, indexId: string)
    requires Rows(s) && CurrentFacts(s, tenant, ticketId, indexId).Some?
    ensures var f := CurrentFacts(s, tenant, ticketId, indexId).value;
            && Coherent(f) && f.ticket.ticketId == ticketId && s.tickets[Key(tenant, ticketId)] == f.ticket
            && (f.order.Some? ==> Lookup(s.orders, tenant, Some(f.order.value.orderId)) == f.order)
            && (f.delivery.Some? ==> Lookup(s.deliveries, tenant, Some(f.delivery.value.deliveryId)) == f.delivery)
  {
  }

  lemma NewSnapshotArchived(s: Tables, s': Tables, k: Key, ticketId: string, indexId: string)
    requires Rows(s) && CurrentFacts(s, k.tenant, ticketId, indexId).Some?
    requires k in s'.snapshots && s'.snapshots[k].facts == CurrentFacts(s, k.tenant, ticketId, indexId).value
    requires s'.tickets == s.tickets && s'.orders == s.orders && s'.deliveries == s.deliveries
    ensures Archived(s', k)
  {
    CapturedCoherent(s, k.tenant, ticketId, indexId);
  }

  lemma SnapshotArchive(s: Tables, tenant: string, id: string, hash: string, ticketId: string, indexId: string)
    requires Archive(s)
    ensures Archive(WithSnapshot(s, tenant, id, hash, ticketId, indexId))
  {
    var s' := WithSnapshot(s, tenant, id, hash, ticketId, indexId);
    if s' != s {
      GrowsReflexive(s);
      NewSnapshotArchived(s, s', Key(tenant, id), ticketId, indexId);
      forall k | k in s'.snapshots ensures Archived(s', k) {
        if k != Key(tenant, id) {
          ArchivedGrows(s, s', k);
        }
      }
    }
  }

  lemma PutTicketGrows(rows: map<Key, Ticket>, k: Key, t: Ticket)
    requires TicketRows(rows) && t.ticketId == k.id && (k in rows ==> NewerTicket(rows[k], t))
    ensures TicketsGrow(rows, rows[k := t]) && TicketRows(rows[k := t])
  {
  }

  lemma PutOrderGrows(rows: map<Key, Order>, k: Key, o: Order)
    requires OrderRows(rows) && o.orderId == k.id && (k in rows ==> NewerOrder(rows[k], o))
    ensures OrdersGrow(rows, rows[k := o]) && OrderRows(rows[k := o])
  {
  }

  lemma PutDeliveryGrows(rows: map<Key, Delivery>, k: Key, d: Delivery)
    requires DeliveryRows(rows) && d.deliveryId == k.id && (k in rows ==> NewerDelivery(rows[k], d))
    ensures DeliveriesGrow(rows, rows[k := d]) && DeliveryRows(rows[k := d])
  {
  }

  lemma WithTicketGrows(s: Tables, t: Ticket)
    requires Rows(s)
    ensures Grows(s, WithTicket(s, t)) && Rows(WithTicket(s, t))
  {
    var k := Key(t.tenantId, t.ticketId);
    GrowsReflexive(s);
    if k !in s.tickets || NewerTicket(s.tickets[k], t) {
      PutTicketGrows(s.tickets, k, t);
    }
  }

  lemma WithOrderGrows(s: Tables, o: Order)
    requires Rows(s)
    ensures Grows(s, WithOrder(s, o)) && Rows(WithOrder(s, o))
  {
    var k := Key(o.tenantId, o.orderId);
    GrowsReflexive(s);
    if k !in s.orders || NewerOrder(s.orders[k], o) {
      PutOrderGrows(s.orders, k, o);
    }
  }

  lemma WithDeliveryGrows(s: Tables, d: Delivery)
    requires Rows(s)
    ensures Grows(s, WithDelivery(s, d)) && Rows(WithDelivery(s, d))
  {
    var k := Key(d.tenantId, d.deliveryId);
    GrowsReflexive(s);
    if k !in s.deliveries || NewerDelivery(s.deliveries[k], d) {
      PutDeliveryGrows(s.deliveries, k, d);
    }
  }

  lemma SourceGrows(env: Env, s: Tables, e: Event)
    requires Rows(s) && !e.Apply?
    ensures Grows(s, Next(env, s, e)) && Rows(Next(env, s, e))
  {
    GrowsReflexive(s);
    if e.PutTicket? {
      WithTicketGrows(s, e.ticket);
    } else if e.PutOrder? {
      WithOrderGrows(s, e.order);
    } else if e.PutDelivery? {
      WithDeliveryGrows(s, e.delivery);
    }
  }

  lemma NextGrows(env: Env, s: Tables, e: Event)
    requires Rows(s)
    ensures Grows(s, Next(env, s, e)) && Rows(Next(env, s, e))
  {
    if e.Apply? {
      AppliedGrows(env, s, e.tenant, e.action, e.now);
    } else {
      SourceGrows(env, s, e);
    }
  }

  lemma NextKeepsSnapshots(env: Env, s: Tables, e: Event)
    requires Rows(s) && !e.Capture?
    ensures Next(env, s, e).snapshots == s.snapshots
  {
    if e.Apply? {
      AppliedGrows(env, s, e.tenant, e.action, e.now);
    }
  }

  lemma SourceKeepsReceipts(env: Env, s: Tables, e: Event)
    requires !e.Apply?
    ensures Next(env, s, e).receipts == s.receipts
  {
  }

  lemma ArchiveNext(env: Env, s: Tables, e: Event)
    requires Archive(s)
    ensures Archive(Next(env, s, e))
  {
    if e.Capture? {
      SnapshotArchive(s, e.tenantId, e.id, e.contentHash, e.ticketId, e.indexId);
    } else {
      NextGrows(env, s, e);
      NextKeepsSnapshots(env, s, e);
      ArchiveGrows(s, Next(env, s, e));
    }
  }

  /** The version vector of facts whose rows are archived determines the facts. */
  lemma VectorDeterminesFacts(s: Tables, k: Key, current: Facts, indexId: string)
    requires Archive(s) && k in s.snapshots
    requires CurrentFacts(s, k.tenant, s.snapshots[k].facts.ticket.ticketId, indexId) == Some(current)
    requires VectorOf(current) == VectorOf(s.snapshots[k].facts)
    ensures current == s.snapshots[k].facts
  {
    var f := s.snapshots[k].facts;
    assert Archived(s, k);
    CapturedCoherent(s, k.tenant, f.ticket.ticketId, indexId);
    assert current.ticket == f.ticket;
    assert current.order == f.order;
    assert current.delivery == f.delivery;
  }

  /** A write happens only while the ticket, the order, the delivery and the policy are exactly what the snapshot captured. */
  lemma WriteSeesCapturedFacts(env: Env, s: Tables, tenant: string, action: SignedAction, now: int)
    requires Archive(s) && Applied(env, s, tenant, action, now).0 != s
    ensures Key(tenant, action.auth.snapshotId) in s.snapshots
    ensures CurrentFacts(s, tenant, action.parameters.ticketId, action.auth.vector.index.id)
            == Some(s.snapshots[Key(tenant, action.auth.snapshotId)].facts)
  {
    assert CurrentTicket(s, action).Some?;
    var current := CurrentFacts(s, tenant, action.parameters.ticketId, action.auth.vector.index.id).value;
    VectorDeterminesFacts(s, Key(tenant, action.auth.snapshotId), current, action.auth.vector.index.id);
  }

  /** A trusted, timely, unused approval of facts that are all still the captured ones. */
  predicate Writable(env: Env, s: Tables, tenant: string, action: SignedAction, now: int) {
    var a, p := action.auth, action.parameters;
    && tenant == a.tenantId && Key(tenant, a.operationId) !in s.receipts && !RequestUsed(s, tenant, a.businessRequestId)
    && a.keyId in env.trusted && tenant in env.trusted[a.keyId].tenants && Verified(env, action, env.trusted[a.keyId].publicKey)
    && a.times.authorizedAt <= now < a.times.expiresAt && SnapshotAgrees(s, action)
    && CurrentFacts(s, tenant, p.ticketId, a.vector.index.id) == Some(s.snapshots[Key(tenant, a.snapshotId)].facts)
  }

  lemma WritableWrites(env: Env, s: Tables, tenant: string, action: SignedAction, now: int)
    requires Writable(env, s, tenant, action, now)
    ensures Wrote(env, s, tenant, action, now)
  {
    var op := Key(tenant, action.auth.operationId);
    assert CurrentTicket(s, action) == Some(s.snapshots[Key(tenant, action.auth.snapshotId)].facts.ticket);
    assert op in Applied(env, s, tenant, action, now).0.receipts;
  }

  /** Exactly when applying a resolution writes. */
  lemma WritesExactly(env: Env, s: Tables, tenant: string, action: SignedAction, now: int)
    requires Archive(s)
    ensures Wrote(env, s, tenant, action, now) <==> Writable(env, s, tenant, action, now)
  {
    if Writable(env, s, tenant, action, now) {
      WritableWrites(env, s, tenant, action, now);
    } else if Wrote(env, s, tenant, action, now) {
      WriteSeesCapturedFacts(env, s, tenant, action, now);
    }
  }

  /** The facts are rows as they are: the ticket, what it refers to as far as that exists, its policy, and the index published for both. */
  ghost predicate Rowwise(s: Tables, tenant: string, ticketId: string, indexId: string, f: Facts) {
    && Lookup(s.tickets, tenant, Some(ticketId)) == Some(f.ticket)
    && f.order == Lookup(s.orders, tenant, f.ticket.orderId)
    && (f.order.None? ==> f.delivery.None?)
    && (f.order.Some? ==> f.delivery == Lookup(s.deliveries, tenant, f.order.value.deliveryId))
    && (f.delivery.Some? ==> f.delivery.value.orderId == f.order.value.orderId)
    && Lookup(s.policies, tenant, Some(f.ticket.policyVersion)) == Some(f.policy)
    && var index := Lookup(s.indexes, tenant, Some(indexId));
       index.Some? && index.value == PublishedIndex(f.index, f.policy.version, f.policy.corpus, true)
  }

  /** The facts read again are exactly those rows, and nothing is read unless they are all there and fit together. */
  lemma CurrentFactsExactly(s: Tables, tenant: string, ticketId: string, indexId: string, f: Facts)
    ensures CurrentFacts(s, tenant, ticketId, indexId) == Some(f) <==> Rowwise(s, tenant, ticketId, indexId, f)
  {
  }

  /** Every fact the approval was based on is still the captured one. */
  ghost predicate StillCaptured(s: Tables, tenant: string, action: SignedAction) {
    && SnapshotAgrees(s, action)
    && CurrentFacts(s, tenant, action.parameters.ticketId, action.auth.vector.index.id)
       == Some(s.snapshots[Key(action.auth.tenantId, action.auth.snapshotId)].facts)
  }

  lemma CurrentIsCaptured(s: Tables, tenant: string, action: SignedAction)
    requires Archive(s) && tenant == action.auth.tenantId
    ensures CurrentTicket(s, action).Some? <==> StillCaptured(s, tenant, action)
  {
    if CurrentTicket(s, action).Some? {
      var current := CurrentFacts(s, tenant, action.parameters.ticketId, action.auth.vector.index.id).value;
      VectorDeterminesFacts(s, Key(tenant, action.auth.snapshotId), current, action.auth.vector.index.id);
    }
  }

  /** Whose fault it is first, then the facts, then the time, then the request. */
  ghost function Objection(env: Env, s: Tables, tenant: string, action: SignedAction, now: int): Option<ActionError> {
    var a := action.auth;
    if a.keyId !in env.trusted || tenant !in env.trusted[a.keyId].tenants || !Verified(env, action, env.trusted[a.keyId].publicKey) then
      Some(ActionForbidden)
    else if !StillCaptured(s, tenant, action) then Some(ActionConflict)
    else if a.times.expiresAt <= now then Some(AuthorizationExpired)
    else if now < a.times.authorizedAt then Some(ActionForbidden)
    else if RequestUsed(s, tenant, a.businessRequestId) then Some(ActionConflict)
    else None
  }

  lemma ObjectionIsFirst(env: Env, s: Tables, tenant: string, action: SignedAction, now: int)
    requires Archive(s) && tenant == action.auth.tenantId
    ensures FirstRefusal(env, s, tenant, action, now) == Objection(env, s, tenant, action, now)
  {
    CurrentIsCaptured(s, tenant, action);
  }

  /** How a write that is not a replay is refused, and that a refusal changes nothing. */
  lemma RefusedExactly(env: Env, s: Tables, tenant: string, action: SignedAction, now: int)
    requires Archive(s) && Key(tenant, action.auth.operationId) !in s.receipts
    ensures var a, (s', result) := action.auth, Applied(env, s, tenant, action, now);
            && (result.Failure? ==> s' == s)
            && (if tenant != a.tenantId then result == Failure(NotFound)
                else if !ValidAuthorization(a) || !ValidParameters(env, action.parameters) then result == Failure(InvalidArgument)
                else if Objection(env, s, tenant, action, now).Some? then result == Failure(Objection(env, s, tenant, action, now).value)
                else result.Success?)
  {
    if tenant == action.auth.tenantId {
      ObjectionIsFirst(env, s, tenant, action, now);
    }
  }

  // ---------- receipts ----------

  /** Every receipt stands for one revision of its ticket, already reached, and no two for the same one. */
  ghost predicate Receipts(s: Tables) {
    && (forall k :: k in s.receipts ==> ReceiptRow(s, k))
    && (forall j, k :: j in s.receipts && k in s.receipts && j != k && j.tenant == k.tenant ==> Apart(s, j, k))
  }

  ghost predicate Apart(s: Tables, j: Key, k: Key)
    requires j in s.receipts && k in s.receipts
  {
    && s.receipts[j].businessRequestId != s.receipts[k].businessRequestId
    && (TicketOf(s, j) == TicketOf(s, k) ==> s.receipts[j].receipt.beforeRevision != s.receipts[k].receipt.beforeRevision)
  }

  function TicketOf(s: Tables, k: Key): string
    requires k in s.receipts
  {
    s.receipts[k].receipt.binding.ticketId
  }

  ghost predicate ReceiptRow(s: Tables, k: Key)
    requires k in s.receipts
  {
    var r := s.receipts[k].receipt;
    && r.binding.tenantId == k.tenant && r.binding.operationId == k.id && r.afterRevision == r.beforeRevision + 1
    && Key(k.tenant, r.binding.ticketId) in s.tickets && r.afterRevision <= s.tickets[Key(k.tenant, r.binding.ticketId)].revision
  }

  lemma ReceiptsGrow(s: Tables, s': Tables)
    requires Receipts(s) && Grows(s, s') && s'.receipts == s.receipts
    ensures Receipts(s')
  {
    forall k | k in s'.receipts ensures ReceiptRow(s', k) {
      assert ReceiptRow(s, k);
    }
    assert forall k :: k in s.receipts ==> TicketOf(s', k) == TicketOf(s, k);
  }

  /** The ticket one revision later: only its status may differ, and a recorded conclusion keeps even that. */
  predicate OneLater(t: Ticket, t': Ticket, p: Parameters) {
    && t'.tenantId == t.tenantId && t'.ticketId == t.ticketId && t'.orderId == t.orderId && t'.policyVersion == t.policyVersion
    && t'.body == t.body && t'.revision == t.revision + 1
    && t'.status == if p.action == "record_conclusion" then t.status else p.target
  }

  /** One accepted write: one revision of one ticket, one receipt for it, kept for thirty days, nothing else. */
  lemma WriteIsOneRevision(env: Env, s: Tables, tenant: string, action: SignedAction, now: int)
    requires Rows(s) && Wrote(env, s, tenant, action, now)
    ensures var (s', result) := Applied(env, s, tenant, action, now);
            var k, op := Key(tenant, action.parameters.ticketId), Key(tenant, action.auth.operationId);
            && k in s.tickets && op !in s.receipts && result.Success? && action.auth.tenantId == tenant
            && k in s'.tickets && OneLater(s.tickets[k], s'.tickets[k], action.parameters)
            && s' == s.(tickets := s.tickets[k := s'.tickets[k]],
                        receipts := s.receipts[op := Stored(AuthorizationHash(env, action.auth), action.auth.businessRequestId, result.value)])
            && result.value.appliedAt == now && result.value.retainUntil == now + 30 * 24 * 3600 * 1_000_000
            && result.value.beforeRevision == s.tickets[k].revision == action.auth.vector.ticketRevision
            && result.value.afterRevision == s'.tickets[k].revision && result.value.ticketStatus == s'.tickets[k].status
            && result.value.binding == BindingOf(env, action)
  {
    AppliedIsOneWrite(env, s, tenant, action, now);
  }

  lemma NewReceiptRow(env: Env, s: Tables, s': Tables, action: SignedAction, receipt: Receipt, now: int)
    requires Rows(s) && OneWrite(env, s, s', action, receipt, now)
    ensures ReceiptRow(s', Key(action.auth.tenantId, action.auth.operationId))
  {
  }

  lemma OldReceiptRow(s: Tables, s': Tables, k: Key)
    requires k in s.receipts && ReceiptRow(s, k) && Grows(s, s') && k in s'.receipts && s'.receipts[k] == s.receipts[k]
    ensures ReceiptRow(s', k)
  {
  }

  lemma NewReceiptDiffers(env: Env, s: Tables, s': Tables, action: SignedAction, receipt: Receipt, now: int, k: Key)
    requires Rows(s) && OneWrite(env, s, s', action, receipt, now) && k in s.receipts && ReceiptRow(s, k)
    requires k.tenant == action.auth.tenantId
    ensures s.receipts[k].businessRequestId != action.auth.businessRequestId
    ensures TicketOf(s, k) == action.parameters.ticketId ==> s.receipts[k].receipt.beforeRevision < receipt.beforeRevision
  {
  }

  lemma ReceiptsWritten(env: Env, s: Tables, s': Tables, action: SignedAction, receipt: Receipt, now: int)
    requires Rows(s) && Receipts(s) && OneWrite(env, s, s', action, receipt, now)
    ensures Receipts(s')
  {
    var op := Key(action.auth.tenantId, action.auth.operationId);
    OneWriteGrows(env, s, s', action, receipt, now);
    NewReceiptRow(env, s, s', action, receipt, now);
    forall k | k in s'.receipts ensures ReceiptRow(s', k) {
      if k != op {
        OldReceiptRow(s, s', k);
      }
    }
    forall k | k in s.receipts && k.tenant == op.tenant
      ensures s.receipts[k].businessRequestId != action.auth.businessRequestId
      ensures TicketOf(s, k) == action.parameters.ticketId ==> s.receipts[k].receipt.beforeRevision < receipt.beforeRevision
    {
      NewReceiptDiffers(env, s, s', action, receipt, now, k);
    }
    ReceiptsDistinct(s, s', op);
  }

  lemma ReceiptsDistinct(s: Tables, s': Tables, op: Key)
    requires Receipts(s) && op !in s.receipts && op in s'.receipts && s'.receipts == s.receipts[op := s'.receipts[op]]
    requires forall k :: k in s'.receipts ==> ReceiptRow(s', k)
    requires forall k :: k in s.receipts && k.tenant == op.tenant ==>
               && s.receipts[k].businessRequestId != s'.receipts[op].businessRequestId
               && (TicketOf(s, k) == TicketOf(s', op) ==> s.receipts[k].receipt.beforeRevision < s'.receipts[op].receipt.beforeRevision)
    ensures Receipts(s')
  {
    forall j, k | j in s'.receipts && k in s'.receipts && j != k && j.tenant == k.tenant ensures Apart(s', j, k) {
      if j != op && k != op {
        assert Apart(s, j, k);
      }
    }
  }

  lemma ReceiptsNext(env: Env, s: Tables, e: Event)
    requires Rows(s) && Receipts(s)
    ensures Receipts(Next(env, s, e))
  {
    if e.Apply? {
      var (s', result) := Applied(env, s, e.tenant, e.action, e.now);
      AppliedIsOneWrite(env, s, e.tenant, e.action, e.now);
      if s' != s {
        ReceiptsWritten(env, s, s', e.action, result.value, e.now);
      }
    } else {
      SourceGrows(env, s, e);
      SourceKeepsReceipts(env, s, e);
      ReceiptsGrow(s, Next(env, s, e));
    }
  }

  ghost predicate Sound(s: Tables) {
    Archive(s) && Receipts(s)
  }

  lemma EmptySound()
    ensures Sound(EMPTY)
  {
  }

  /** Whatever is applied, loaded and captured, in any order, the store stays sound. */
  lemma {:induction false} AlwaysSound(env: Env, s: Tables, events: seq<Event>)
    requires Sound(s)
    ensures Sound(Replay(env, s, events))
  {
    if events != [] {
      AlwaysSound(env, s, events[..|events| - 1]);
      ArchiveNext(env, Replay(env, s, events[..|events| - 1]), events[|events| - 1]);
      ReceiptsNext(env, Replay(env, s, events[..|events| - 1]), events[|events| - 1]);
    }
  }

  lemma ReceiptKept(env: Env, s: Tables, e: Event, k: Key)
    requires k in s.receipts && Rows(s)
    ensures k in Next(env, s, e).receipts && Next(env, s, e).receipts[k] == s.receipts[k]
  {
    if e.Apply? {
      AppliedIsOneWrite(env, s, e.tenant, e.action, e.now);
    } else {
      SourceKeepsReceipts(env, s, e);
    }
  }

  /** A recorded receipt is never replaced or removed. */
  lemma {:induction false} ReceiptsAreForever(env: Env, s: Tables, events: seq<Event>, k: Key)
    requires k in s.receipts && Sound(s)
    ensures k in Replay(env, s, events).receipts && Replay(env, s, events).receipts[k] == s.receipts[k]
  {
    if events != [] {
      var n := |events| - 1;
      ReceiptsAreForever(env, s, events[..n], k);
      AlwaysSound(env, s, events[..n]);
      ReceiptKept(env, Replay(env, s, events[..n]), events[n], k);
    }
  }

  // ---------- exactly once ----------

  /** Two different operations approved at the same revision of a ticket never both write, however they are interleaved with anything else. */
  lemma SameRevisionNeverBothWrite(env: Env, s: Tables, first: SignedAction, events: seq<Event>, second: SignedAction, tenant: string,
                                   t: int, t': int)
    requires Sound(s) && Wrote(env, s, tenant, first, t)
    requires first.auth.operationId != second.auth.operationId
    requires first.parameters.ticketId == second.parameters.ticketId
    requires first.auth.vector.ticketRevision == second.auth.vector.ticketRevision
    ensures var later := Replay(env, Applied(env, s, tenant, first, t).0, events);
            !Wrote(env, later, tenant, second, t')
  {
    var s1 := Applied(env, s, tenant, first, t).0;
    var op, op' := Key(tenant, first.auth.operationId), Key(tenant, second.auth.operationId);
    WriteIsOneRevision(env, s, tenant, first, t);
    ArchiveNext(env, s, Apply(tenant, first, t));
    ReceiptsNext(env, s, Apply(tenant, first, t));
    var later := Replay(env, s1, events);
    AlwaysSound(env, s1, events);
    ReceiptsAreForever(env, s1, events, op);
    assert ReceiptRow(later, op);
    if Wrote(env, later, tenant, second, t') {
      WriteIsOneRevision(env, later, tenant, second, t');
    }
  }

  /**
    The receipt of a write answers its own action exactly when retaining it for thirty days stays in
    the safe integer range; an authorization may expire later than that range allows.
  */
  lemma WrittenReceiptValid(env: Env, s: Tables, tenant: string, action: SignedAction, now: int)
    requires Archive(s) && Wrote(env, s, tenant, action, now)
    ensures var receipt := Applied(env, s, tenant, action, now).1.value;
            ValidReceipt(env, receipt, action) <==> now + RETENTION <= SAFE_INTEGER
  {
    WriteIsOneRevision(env, s, tenant, action, now);
    WriteSeesCapturedFacts(env, s, tenant, action, now);
    var ticket := CurrentTicket(s, action).value;
    var r := NewReceipt(env, action, ticket, now);
    assert r.(receiptHash := "") == r.(receiptHash := r.receiptHash).(receiptHash := "");
  }

  /**
    Replaying an action after it was written changes nothing, whatever happened since and however
    late it is: it returns the first receipt, exactly under that condition, and otherwise conflicts.
  */
  lemma ReplayReturnsFirstReceipt(env: Env, s: Tables, tenant: string, action: SignedAction, now: int, events: seq<Event>, later: int)
    requires Sound(s) && Wrote(env, s, tenant, action, now)
    ensures var (written, first) := Applied(env, s, tenant, action, now);
            var after := Replay(env, written, events);
            Applied(env, after, tenant, action, later)
            == (after, if now + RETENTION <= SAFE_INTEGER then first else Failure(ActionConflict))
  {
    var (written, first) := Applied(env, s, tenant, action, now);
    var op := Key(tenant, action.auth.operationId);
    WriteIsOneRevision(env, s, tenant, action, now);
    WrittenReceiptValid(env, s, tenant, action, now);
    ArchiveNext(env, s, Apply(tenant, action, now));
    ReceiptsNext(env, s, Apply(tenant, action, now));
    ReceiptsAreForever(env, written, events, op);
  }

  /** Every valid authorization has an equally valid one whose receipts cannot be replayed. */
  lemma LateAuthorizationsExist(a: Authorization)
    requires ValidAuthorization(a)
    ensures var late := Times(a.times.createdAt, a.times.createdAt, SAFE_INTEGER - 1, SAFE_INTEGER, SAFE_INTEGER, SAFE_INTEGER);
            ValidAuthorization(a.(times := late)) && late.authorizedAt < late.expiresAt && late.authorizedAt + RETENTION > SAFE_INTEGER
  {
  }

  // A run in which that happens: one ticket without an order is loaded, captured and resolved as late as an authorization can be.

  function LoneTicket(tenant: string, p: Parameters): Ticket {
    Ticket(tenant, p.ticketId, 1, None, if p.action == "record_conclusion" then p.target else "open", "policy", "")
  }

  function LoneFacts(tenant: string, p: Parameters, id: string, hash: string): Facts {
    Facts(LoneTicket(tenant, p), None, None, Policy("policy", 1, hash), Index(id, hash, hash))
  }

  function LoneLoad(tenant: string, p: Parameters, id: string, hash: string): seq<Event> {
    var facts := LoneFacts(tenant, p, id, hash);
    [PutTicket(facts.ticket), PutPolicy(tenant, facts.policy), PutIndex(tenant, PublishedIndex(facts.index, "policy", hash, true)),
     Capture(tenant, id, hash, p.ticketId, id)]
  }

  function LoneTables(tenant: string, p: Parameters, id: string, hash: string): Tables {
    var facts := LoneFacts(tenant, p, id, hash);
    Tables(map[Key(tenant, p.ticketId) := facts.ticket], map[], map[], map[Key(tenant, "policy") := facts.policy],
           map[Key(tenant, id) := PublishedIndex(facts.index, "policy", hash, true)], map[Key(tenant, id) := Snapshot(tenant, hash, facts)], map[])
  }

  /** Authorized one microsecond before the last safe time, under any trusted key. */
  function LateAuthorization(env: Env, keyId: string, tenant: string, p: Parameters, id: string, hash: string): Authorization {
    var late := Times(1, 1, SAFE_INTEGER - 1, SAFE_INTEGER, SAFE_INTEGER, SAFE_INTEGER);
    Authorization(1, keyId, OPERATION, tenant, id, id, id, id, "actor", hash, ParametersHash(env, p), id, hash,
                  VectorOf(LoneFacts(tenant, p, id, hash)), late)
  }

  lemma ReplayFour(env: Env, s: Tables, events: seq<Event>)
    requires |events| == 4
    ensures Replay(env, s, events) == Next(env, Next(env, Next(env, Next(env, s, events[0]), events[1]), events[2]), events[3])
  {
    assert events[..3][..2] == events[..2] && events[..2][..1] == events[..1] && events[..1][..0] == [];
    assert Replay(env, s, events[..1]) == Next(env, s, events[0]);
    assert Replay(env, s, events[..2]) == Next(env, Replay(env, s, events[..1]), events[1]);
    assert Replay(env, s, events[..3]) == Next(env, Replay(env, s, events[..2]), events[2]);
  }

  lemma LoneLoaded(env: Env, tenant: string, p: Parameters, id: string, hash: string)
    ensures Replay(env, EMPTY, LoneLoad(tenant, p, id, hash)) == LoneTables(tenant, p, id, hash)
  {
    ReplayFour(env, EMPTY, LoneLoad(tenant, p, id, hash));
  }

  lemma LoneAuthorized(env: Env, keyId: string, tenant: string, p: Parameters, id: string, hash: string)
    requires ValidIdentifier(keyId) && ValidIdentifier(tenant) && ValidIdentifier(p.ticketId) && ValidUUID(id) && ValidHash(hash)
    requires ValidHash(ParametersHash(env, p))
    ensures ValidAuthorization(LateAuthorization(env, keyId, tenant, p, id, hash))
  {
  }

  lemma LoneAgrees(env: Env, action: SignedAction, keyId: string, tenant: string, id: string, hash: string)
    requires action.auth == LateAuthorization(env, keyId, tenant, action.parameters, id, hash)
    ensures var s := LoneTables(tenant, action.parameters, id, hash);
            && SnapshotAgrees(s, action)
            && CurrentFacts(s, tenant, action.parameters.ticketId, id) == Some(LoneFacts(tenant, action.parameters, id, hash))
  {
  }

  /**
    Any trusted key and any valid parameters have such a run: from an empty store, the sources of a
    ticket are loaded and captured, its late authorization writes, and every identical replay conflicts.
    The run needs a database clock near the safe integer bound of 9007199254740991 microseconds, about
    the year 2255.
  */
  lemma LateReplayConflicts(env: Env, keyId: string, tenant: string, action: SignedAction, id: string, hash: string, later: int)
    requires keyId in env.trusted && tenant in env.trusted[keyId].tenants && ValidIdentifier(keyId) && ValidIdentifier(tenant)
    requires ValidParameters(env, action.parameters) && ValidHash(ParametersHash(env, action.parameters)) && ValidUUID(id)
    requires ValidHash(hash)
    requires action.auth == LateAuthorization(env, keyId, tenant, action.parameters, id, hash)
    requires env.verifies(env.trusted[keyId].publicKey, AuthorizationHash(env, action.auth), action.signature)
    ensures var s := Replay(env, EMPTY, LoneLoad(tenant, action.parameters, id, hash));
            var (written, first) := Applied(env, s, tenant, action, SAFE_INTEGER - 1);
            && first.Success? && Key(tenant, id) in written.receipts
            && Applied(env, written, tenant, action, later) == (written, Failure(ActionConflict))
  {
    var s := Replay(env, EMPTY, LoneLoad(tenant, action.parameters, id, hash));
    LoneLoaded(env, tenant, action.parameters, id, hash);
    LoneAuthorized(env, keyId, tenant, action.parameters, id, hash);
    LoneAgrees(env, action, keyId, tenant, id, hash);
    WritableWrites(env, s, tenant, action, SAFE_INTEGER - 1);
    EmptySound();
    AlwaysSound(env, EMPTY, LoneLoad(tenant, action.parameters, id, hash));
    WriteIsOneRevision(env, s, tenant, action, SAFE_INTEGER - 1);
    ReplayReturnsFirstReceipt(env, s, tenant, action, SAFE_INTEGER - 1, [], later);
  }

  /** The digest covers every authorization field: equal preimages come from equal facts and an equal vector digest. */
  lemma AuthorizationFieldsInjective(a: Authorization, v: string, b: Authorization, w: string)
    requires Measurable(AuthorizationFields(a, v)) && Measurable(AuthorizationFields(b, w))
    requires Encode(AuthorizationFields(a, v)) == Encode(AuthorizationFields(b, w))
    ensures v == w && a.times == b.times
    ensures a == b.(schemaVersion := a.schemaVersion, vector := a.vector)
  {
    EncodeInjective(AuthorizationFields(a, v), AuthorizationFields(b, w));
    var f, g := AuthorizationFields(a, v), AuthorizationFields(b, w);
    SameTail(a, v, b, w);
    assert f[2] == g[2] && f[3] == g[3] && f[4] == g[4] && f[5] == g[5] && f[7] == g[7] && f[8] == g[8];
    assert f[9] == g[9] && f[10] == g[10] && f[12] == g[12] && f[13] == g[13] && f[14] == g[14] && f[15] == g[15] && f[16] == g[16];
  }

  lemma SameTail(a: Authorization, v: string, b: Authorization, w: string)
    requires AuthorizationFields(a, v) == AuthorizationFields(b, w)
    ensures a.times == b.times
  {
    var f, g := AuthorizationFields(a, v), AuthorizationFields(b, w);
    assert f[6] == g[6] && f[11] == g[11] && f[17] == g[17] && f[18] == g[18] && f[19] == g[19] && f[20] == g[20];
    FormatIntInjective(a.times.createdAt, b.times.createdAt);
    FormatIntInjective(a.times.decidedAt, b.times.decidedAt);
    FormatIntInjective(a.times.authorizedAt, b.times.authorizedAt);
    FormatIntInjective(a.times.permissionExpiresAt, b.times.permissionExpiresAt);
    FormatIntInjective(a.times.expiresAt, b.times.expiresAt);
    FormatIntInjective(a.times.runDeadline, b.times.runDeadline);
  }
}
