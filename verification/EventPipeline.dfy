/**
  Outbox to inbox (internal/outbox/publisher.go, internal/eventconsumer/consumer.go, processor.go,
  source.go) as a state machine: publishers that claim, deliver and mark, one consumer group with
  its pending entries, and the inbox transaction. Every action may fail or be cut off by a crash;
  stream trimming is not modelled.
*/
module EventPipeline {
  import opened Wrappers
  import opened Identity
  import opened OutboxEnvelope

  // ---------- the outbox table ----------

  datatype Row = Row(data: EventData, published: bool, claimed: bool, attempts: nat)

  type Table = map<int, Row>

  predicate Eligible(table: Table, id: int) {
    id in table && !table[id].published && !table[id].claimed
  }

  function Claimed(table: Table, ids: set<int>): Table {
    map id | id in table :: if id in ids then table[id].(claimed := true) else table[id]
  }

  /** Claims are dropped, attempts counted and rows marked only while a row is unpublished. */
  function Released(table: Table, ids: set<int>): Table {
    map id | id in table :: if id in ids && !table[id].published then table[id].(claimed := false) else table[id]
  }

  function Counted(table: Table, id: int): Table {
    if id in table && !table[id].published then table[id := table[id].(attempts := table[id].attempts + 1)] else table
  }

  function Marked(table: Table, ids: set<int>): Table {
    map id | id in table :: if id in ids && !table[id].published then table[id].(published := true) else table[id]
  }

  // ---------- the broker ----------

  datatype Poison = Poison(entry: nat, count: nat)

  /** One stream and the one group that reads it; `pending` holds each unacknowledged entry's delivery count. */
  datatype Broker = Broker(stream: seq<Fields>, cursor: nat, pending: map<nat, nat>, acked: set<nat>, poison: seq<Poison>)

  function Appended(b: Broker, fields: Fields): Broker {
    b.(stream := b.stream + [fields])
  }

  function Delivered(b: Broker): Broker {
    b.(cursor := b.cursor + 1, pending := b.pending[b.cursor := 1])
  }

  function Redelivered(b: Broker, k: nat): Broker
    requires k in b.pending
  {
    b.(pending := b.pending[k := b.pending[k] + 1])
  }

  function Acked(b: Broker, k: nat): Broker {
    if k in b.pending then b.(pending := b.pending - {k}, acked := b.acked + {k}) else b
  }

  function Quarantined(b: Broker, k: nat, count: nat): Broker {
    b.(poison := b.poison + [Poison(k, count)])
  }

  // ---------- the inbox ----------

  datatype InboxRow = InboxRow(group: string, aggregateId: string, aggregateVersion: int)

  datatype Inbox = Inbox(binding: Option<string>, rows: map<string, InboxRow>, effects: seq<string>)

  /** What the registered handler and its transaction do; a lost commit is durable but reported as an error. */
  datatype Verdict = Commits | RejectsForGood | FailsForNow | CommitsUnheard

  datatype Processed = Applied | Duplicate | GroupMismatch | MetadataMismatch | PermanentError | TransientError

  function Bound(db: Inbox, group: string): Inbox {
    if db.binding.None? then db.(binding := Some(group)) else db
  }

  function RowOf(group: string, e: Envelope): InboxRow {
    InboxRow(group, e.aggregateId, e.aggregateVersion)
  }

  function Recorded(db: Inbox, group: string, e: Envelope): Inbox {
    db.(rows := db.rows[e.eventId := RowOf(group, e)], effects := db.effects + [e.eventId])
  }

  function Process(db: Inbox, group: string, e: Envelope, verdict: Verdict): (Inbox, Processed) {
    var bound := Bound(db, group);
    if bound.binding != Some(group) then (db, GroupMismatch)
    else if e.eventId in bound.rows then
      var row := bound.rows[e.eventId];
      (bound, if row.group != group then GroupMismatch else if row != RowOf(group, e) then MetadataMismatch else Duplicate)
    else
      match verdict
      case Commits => (Recorded(bound, group, e), Applied)
      case RejectsForGood => (bound, PermanentError)
      case FailsForNow => (bound, TransientError)
      case CommitsUnheard => (Recorded(bound, group, e), TransientError)
  }

  // ---------- everything together ----------

  datatype Config = Config(text: Text, group: string, maxDeliveries: nat)

  /** A publisher's memory: events still to deliver, and those the broker acknowledged. */
  datatype Round = Round(batch: set<int>, ok: set<int>)

  datatype Stage = Received | Rejected | Committed | Isolated

  /** A consumer's memory: the entry it works on. */
  datatype Held = Held(entry: nat, count: nat, stage: Stage)

  datatype World = World(facts: map<int, EventData>, table: Table, rounds: map<string, Round>, broker: Broker, db: Inbox,
                         held: map<string, Held>)

  /** How a delivery ended; an unacknowledged one may have been appended, counted as failed and released, or any of them not. */
  datatype Delivery = Acknowledged | Unacknowledged(appended: bool, counted: bool, released: bool)

  predicate WasAppended(delivery: Delivery) {
    delivery.Acknowledged? || delivery.appended
  }

  function AfterFailure(table: Table, id: int, delivery: Delivery): Table
    requires delivery.Unacknowledged?
  {
    var counted := if delivery.counted then Counted(table, id) else table;
    if delivery.released then Released(counted, {id}) else counted
  }

  /** A poison row is written, written but not heard of, or not written. */
  datatype Isolation = Written | WrittenUnheard | NotWritten

  datatype Action =
    | Write(id: int, data: EventData)
    | Fetch(publisher: string, batch: set<int>) | Deliver(publisher: string, id: int, delivery: Delivery)
    | GiveUp(publisher: string, id: int, ok: bool) | Mark(publisher: string, ok: bool, released: set<int>)
    | CrashPublisher(publisher: string) | ExpireClaim(id: int) | Clean(id: int)
    | Foreign(fields: Fields)
    | Read(consumer: string) | Reclaim(consumer: string, entry: nat) | Work(consumer: string, verdict: Verdict)
    | Isolate(consumer: string, answer: Isolation) | Acknowledge(consumer: string, ok: bool) | CrashConsumer(consumer: string)

  function EventFields(c: Config, facts: map<int, EventData>, id: int): Fields
    requires id in facts
  {
    FieldsOf(c.text, NewEnvelope(id, facts[id]))
  }

  function DeliverOne(c: Config, w: World, publisher: string, id: int, delivery: Delivery): World
    requires publisher in w.rounds && id in w.rounds[publisher].batch && id in w.facts
  {
    var round := w.rounds[publisher];
    var broker := if WasAppended(delivery) then Appended(w.broker, EventFields(c, w.facts, id)) else w.broker;
    if delivery.Acknowledged? then
      w.(broker := broker, rounds := w.rounds[publisher := Round(round.batch - {id}, round.ok + {id})])
    else
      w.(broker := broker, rounds := w.rounds[publisher := Round(round.batch - {id}, round.ok)], table := AfterFailure(w.table, id, delivery))
  }

  function PublisherNext(c: Config, w: World, a: Action): World {
    match a
    case Write(id, data) =>
      if id in w.facts then w else w.(facts := w.facts[id := data], table := w.table[id := Row(data, false, false, 0)])
    case Fetch(p, batch) =>
      if p in w.rounds || exists id :: id in batch && !Eligible(w.table, id) then w
      else w.(table := Claimed(w.table, batch), rounds := w.rounds[p := Round(batch, {})])
    case Deliver(p, id, delivery) =>
      if p in w.rounds && id in w.rounds[p].batch && id in w.facts then DeliverOne(c, w, p, id, delivery) else w
    case GiveUp(p, id, ok) =>
      if p !in w.rounds then w
      else w.(rounds := w.rounds[p := w.rounds[p].(batch := w.rounds[p].batch - {id})],
              table := if ok then Released(w.table, {id}) else w.table)
    case Mark(p, ok, released) =>
      if p !in w.rounds then w
      else w.(rounds := w.rounds - {p},
              table := if ok then Marked(w.table, w.rounds[p].ok) else Released(w.table, w.rounds[p].ok * released))
    case CrashPublisher(p) => w.(rounds := w.rounds - {p})
    case ExpireClaim(id) => w.(table := Released(w.table, {id}))
    case Clean(id) => if id in w.table && w.table[id].published then w.(table := w.table - {id}) else w
    case Foreign(fields) => if Decode(c.text, fields).Some? then w else w.(broker := Appended(w.broker, fields))
    case _ => w
  }

  /** What a consumer does after processing; None abandons the entry to redelivery. */
  function StageAfter(result: Processed): Option<Stage> {
    match result
    case Applied => Some(Committed)
    case Duplicate => Some(Committed)
    case PermanentError => Some(Rejected)
    case _ => None
  }

  function Proceed(held: map<string, Held>, consumer: string, stage: Option<Stage>): map<string, Held>
    requires consumer in held
  {
    if stage.Some? then held[consumer := held[consumer].(stage := stage.value)] else held - {consumer}
  }

  function WorkOne(c: Config, w: World, consumer: string, verdict: Verdict): World
    requires consumer in w.held && w.held[consumer].entry < |w.broker.stream|
  {
    var envelope := Decode(c.text, w.broker.stream[w.held[consumer].entry]);
    if envelope.None? then w.(held := Proceed(w.held, consumer, Some(Rejected)))
    else
      var (db, result) := Process(w.db, c.group, envelope.value, verdict);
      w.(db := db, held := Proceed(w.held, consumer, StageAfter(result)))
  }

  function ConsumerNext(c: Config, w: World, a: Action): World {
    match a
    case Read(s) =>
      if s in w.held || w.broker.cursor >= |w.broker.stream| then w
      else w.(broker := Delivered(w.broker), held := w.held[s := Held(w.broker.cursor, 1, Received)])
    case Reclaim(s, k) =>
      if s in w.held || k !in w.broker.pending then w
      else w.(broker := Redelivered(w.broker, k), held := w.held[s := Held(k, w.broker.pending[k] + 1, Received)])
    case Work(s, verdict) =>
      if s in w.held && w.held[s].stage.Received? && w.held[s].entry < |w.broker.stream| then WorkOne(c, w, s, verdict) else w
    case Isolate(s, answer) =>
      if s !in w.held || !w.held[s].stage.Rejected? then w
      else if w.held[s].count < c.maxDeliveries || answer.NotWritten? then w.(held := w.held - {s})
      else w.(broker := Quarantined(w.broker, w.held[s].entry, w.held[s].count),
              held := Proceed(w.held, s, if answer.Written? then Some(Isolated) else None))
    case Acknowledge(s, ok) =>
      if s !in w.held || (!w.held[s].stage.Committed? && !w.held[s].stage.Isolated?) then w
      else w.(broker := if ok then Acked(w.broker, w.held[s].entry) else w.broker, held := w.held - {s})
    case CrashConsumer(s) => w.(held := w.held - {s})
    case _ => w
  }

  predicate OfConsumer(a: Action) {
    a.Read? || a.Reclaim? || a.Work? || a.Isolate? || a.Acknowledge? || a.CrashConsumer?
  }

  function Next(c: Config, w: World, a: Action): World {
    if OfConsumer(a) then ConsumerNext(c, w, a) else PublisherNext(c, w, a)
  }

  function Start(binding: Option<string>): World {
    World(map[], map[], map[], Broker([], 0, map[], {}, []), Inbox(binding, map[], []), map[])
  }

  function Run(c: Config, w: World, actions: seq<Action>): World {
    if actions == [] then w else Next(c, Run(c, w, actions[..|actions| - 1]), actions[|actions| - 1])
  }

  // ---------- the publisher keeps its promise ----------

  ghost predicate InStream(c: Config, facts: map<int, EventData>, stream: seq<Fields>, id: int) {
    id in facts && exists k :: 0 <= k < |stream| && stream[k] == EventFields(c, facts, id)
  }

  ghost predicate Outbox(c: Config, w: World) {
    && (forall id :: id in w.table ==> id in w.facts && w.table[id].data == w.facts[id])
    && (forall id :: id in w.facts && (id !in w.table || w.table[id].published) ==> InStream(c, w.facts, w.broker.stream, id))
    && (forall p, id :: p in w.rounds && id in w.rounds[p].ok ==> InStream(c, w.facts, w.broker.stream, id))
    && (forall p, id :: p in w.rounds && id in w.rounds[p].batch ==> id in w.facts)
  }

  /** Every entry is a publisher's, or does not decode. */
  ghost predicate Traceable(c: Config, w: World) {
    forall k :: 0 <= k < |w.broker.stream| ==>
      || Decode(c.text, w.broker.stream[k]).None?
      || exists id :: id in w.facts && w.broker.stream[k] == EventFields(c, w.facts, id)
  }

  lemma StreamGrows(c: Config, facts: map<int, EventData>, stream: seq<Fields>, fields: Fields, id: int)
    requires InStream(c, facts, stream, id)
    ensures InStream(c, facts, stream + [fields], id)
  {
    var k :| 0 <= k < |stream| && stream[k] == EventFields(c, facts, id);
    assert (stream + [fields])[k] == EventFields(c, facts, id);
  }

  lemma FactsGrow(c: Config, facts: map<int, EventData>, stream: seq<Fields>, new': int, data: EventData, id: int)
    requires InStream(c, facts, stream, id) && new' !in facts
    ensures InStream(c, facts[new' := data], stream, id)
  {
    var k :| 0 <= k < |stream| && stream[k] == EventFields(c, facts, id);
    assert stream[k] == EventFields(c, facts[new' := data], id);
  }

  lemma OutboxWrite(c: Config, w: World, id: int, data: EventData)
    requires Outbox(c, w)
    ensures Outbox(c, PublisherNext(c, w, Write(id, data)))
  {
    if id !in w.facts {
      var w' := PublisherNext(c, w, Write(id, data));
      forall e | InStream(c, w.facts, w.broker.stream, e) ensures InStream(c, w'.facts, w'.broker.stream, e) {
        FactsGrow(c, w.facts, w.broker.stream, id, data, e);
      }
    }
  }

  lemma OutboxDeliver(c: Config, w: World, p: string, id: int, delivery: Delivery)
    requires Outbox(c, w) && p in w.rounds && id in w.rounds[p].batch && id in w.facts
    ensures Outbox(c, DeliverOne(c, w, p, id, delivery))
  {
    var w' := DeliverOne(c, w, p, id, delivery);
    if WasAppended(delivery) {
      var fields := EventFields(c, w.facts, id);
      forall e | InStream(c, w.facts, w.broker.stream, e) ensures InStream(c, w.facts, w'.broker.stream, e) {
        StreamGrows(c, w.facts, w.broker.stream, fields, e);
      }
      assert w'.broker.stream[|w.broker.stream|] == fields;
    }
  }

  lemma OutboxForeign(c: Config, w: World, fields: Fields)
    requires Outbox(c, w)
    ensures Outbox(c, PublisherNext(c, w, Foreign(fields)))
  {
    forall e | InStream(c, w.facts, w.broker.stream, e) ensures InStream(c, w.facts, w.broker.stream + [fields], e) {
      StreamGrows(c, w.facts, w.broker.stream, fields, e);
    }
  }

  lemma OutboxNext(c: Config, w: World, a: Action)
    requires Outbox(c, w)
    ensures Outbox(c, Next(c, w, a))
  {
    if a.Write? {
      OutboxWrite(c, w, a.id, a.data);
    } else if a.Deliver? {
      if a.publisher in w.rounds && a.id in w.rounds[a.publisher].batch {
        OutboxDeliver(c, w, a.publisher, a.id, a.delivery);
      }
    } else if a.Foreign? {
      OutboxForeign(c, w, a.fields);
    } else if OfConsumer(a) {
      StreamUntouched(c, w, a);
    }
  }

  ghost predicate SameOutbox(w: World, w': World) {
    w'.broker.stream == w.broker.stream && w'.facts == w.facts && w'.table == w.table && w'.rounds == w.rounds
  }

  lemma WorkUntouched(c: Config, w: World, consumer: string, verdict: Verdict)
    requires consumer in w.held && w.held[consumer].entry < |w.broker.stream|
    ensures SameOutbox(w, WorkOne(c, w, consumer, verdict)) && WorkOne(c, w, consumer, verdict).broker == w.broker
  {
  }

  lemma StreamUntouched(c: Config, w: World, a: Action)
    requires OfConsumer(a)
    ensures SameOutbox(w, Next(c, w, a))
  {
    if a.Work? && a.consumer in w.held && w.held[a.consumer].entry < |w.broker.stream| {
      WorkUntouched(c, w, a.consumer, a.verdict);
    }
  }

  lemma TraceableNext(c: Config, w: World, a: Action)
    requires Traceable(c, w)
    ensures Traceable(c, Next(c, w, a))
  {
    var w' := Next(c, w, a);
    if OfConsumer(a) {
      StreamUntouched(c, w, a);
    } else {
      StreamExtended(c, w, a);
      forall k | 0 <= k < |w'.broker.stream| && Decode(c.text, w'.broker.stream[k]).Some?
        ensures exists id :: id in w'.facts && w'.broker.stream[k] == EventFields(c, w'.facts, id)
      {
        if k < |w.broker.stream| {
          var id :| id in w.facts && w.broker.stream[k] == EventFields(c, w.facts, id);
          assert w'.broker.stream[k] == EventFields(c, w'.facts, id);
        } else {
          assert a.Deliver?;
          assert w'.broker.stream[k] == EventFields(c, w'.facts, a.id);
        }
      }
    }
  }

  /** A publisher's action appends at most one entry, and known events keep their data. */
  lemma StreamExtended(c: Config, w: World, a: Action)
    requires !OfConsumer(a)
    ensures var w' := Next(c, w, a);
            && w'.broker == w.broker.(stream := w'.broker.stream) && w'.db == w.db && w'.held == w.held
            && (w'.broker.stream == w.broker.stream
                || (a.Deliver? && a.id in w.facts && w'.broker.stream == w.broker.stream + [EventFields(c, w.facts, a.id)])
                || (a.Foreign? && Decode(c.text, a.fields).None? && w'.broker.stream == w.broker.stream + [a.fields]))
            && (forall id :: id in w.facts ==> id in w'.facts && w'.facts[id] == w.facts[id])
  {
  }

  // ---------- the consumers keep theirs ----------

  ghost predicate Poisoned(b: Broker, k: nat) {
    exists i :: 0 <= i < |b.poison| && b.poison[i].entry == k
  }

  /** The entry decodes and its event is in the inbox. */
  ghost predicate InInbox(c: Config, stream: seq<Fields>, db: Inbox, k: nat) {
    k < |stream| && Decode(c.text, stream[k]).Some? && Decode(c.text, stream[k]).value.eventId in db.rows
  }

  /** Every entry before the cursor is either pending or acknowledged, never both; later ones are neither. */
  ghost predicate Grouped(b: Broker) {
    && b.cursor <= |b.stream| && b.pending.Keys !! b.acked
    && (forall k :: k in b.pending || k in b.acked ==> k < b.cursor)
    && (forall k :: 0 <= k < b.cursor ==> k in b.pending || k in b.acked)
  }

  ghost predicate HeldFits(c: Config, b: Broker, db: Inbox, h: Held) {
    && h.entry < b.cursor
    && (h.stage.Committed? ==> InInbox(c, b.stream, db, h.entry))
    && (h.stage.Isolated? ==> Poisoned(b, h.entry))
  }

  ghost predicate Consuming(c: Config, b: Broker, db: Inbox, held: map<string, Held>) {
    && Grouped(b)
    && (forall k :: k in b.acked ==> InInbox(c, b.stream, db, k) || Poisoned(b, k))
    && (forall i :: 0 <= i < |b.poison| ==> b.poison[i].entry < b.cursor && b.poison[i].count >= c.maxDeliveries)
    && (forall s :: s in held ==> HeldFits(c, b, db, held[s]))
  }

  lemma ConsumingExtended(c: Config, b: Broker, db: Inbox, held: map<string, Held>, stream: seq<Fields>)
    requires Consuming(c, b, db, held) && b.stream <= stream
    ensures Consuming(c, b.(stream := stream), db, held)
  {
    var b' := b.(stream := stream);
    forall k | k in b.acked ensures InInbox(c, stream, db, k) || Poisoned(b', k) {
      assert InInbox(c, b.stream, db, k) || Poisoned(b, k);
    }
    forall s | s in held ensures HeldFits(c, b', db, held[s]) {
      assert HeldFits(c, b, db, held[s]);
    }
  }

  lemma ConsumingInbox(c: Config, b: Broker, db: Inbox, db': Inbox, held: map<string, Held>)
    requires Consuming(c, b, db, held) && db.rows.Keys <= db'.rows.Keys
    ensures Consuming(c, b, db', held)
  {
    forall k | k in b.acked ensures InInbox(c, b.stream, db', k) || Poisoned(b, k) {
      assert InInbox(c, b.stream, db, k) || Poisoned(b, k);
    }
    forall s | s in held ensures HeldFits(c, b, db', held[s]) {
      assert HeldFits(c, b, db, held[s]);
    }
  }

  lemma ConsumingHeld(c: Config, b: Broker, db: Inbox, held: map<string, Held>, s: string, h: Held)
    requires Consuming(c, b, db, held) && HeldFits(c, b, db, h)
    ensures Consuming(c, b, db, held[s := h]) && Consuming(c, b, db, held - {s})
  {
  }

  lemma ConsumingRead(c: Config, b: Broker, db: Inbox, held: map<string, Held>)
    requires Consuming(c, b, db, held) && b.cursor < |b.stream|
    ensures Consuming(c, Delivered(b), db, held)
  {
    forall k | k in b.acked ensures InInbox(c, b.stream, db, k) || Poisoned(Delivered(b), k) {
      assert InInbox(c, b.stream, db, k) || Poisoned(b, k);
    }
    forall s | s in held ensures HeldFits(c, Delivered(b), db, held[s]) {
      assert HeldFits(c, b, db, held[s]);
    }
  }

  lemma ConsumingReclaim(c: Config, b: Broker, db: Inbox, held: map<string, Held>, k: nat)
    requires Consuming(c, b, db, held) && k in b.pending
    ensures Consuming(c, Redelivered(b, k), db, held)
  {
    forall j | j in b.acked ensures InInbox(c, b.stream, db, j) || Poisoned(Redelivered(b, k), j) {
      assert InInbox(c, b.stream, db, j) || Poisoned(b, j);
    }
    forall s | s in held ensures HeldFits(c, Redelivered(b, k), db, held[s]) {
      assert HeldFits(c, b, db, held[s]);
    }
  }

  lemma ConsumingIsolate(c: Config, b: Broker, db: Inbox, held: map<string, Held>, k: nat, count: nat)
    requires Consuming(c, b, db, held) && k < b.cursor && count >= c.maxDeliveries
    ensures Consuming(c, Quarantined(b, k, count), db, held) && Poisoned(Quarantined(b, k, count), k)
  {
    var b' := Quarantined(b, k, count);
    assert b'.poison[|b.poison|].entry == k;
    forall j | Poisoned(b, j) ensures Poisoned(b', j) {
      var i :| 0 <= i < |b.poison| && b.poison[i].entry == j;
      assert b'.poison[i].entry == j;
    }
    forall s | s in held ensures HeldFits(c, b', db, held[s]) {
      assert HeldFits(c, b, db, held[s]);
    }
  }

  lemma ConsumingAck(c: Config, b: Broker, db: Inbox, held: map<string, Held>, k: nat)
    requires Consuming(c, b, db, held) && (InInbox(c, b.stream, db, k) || Poisoned(b, k))
    ensures Consuming(c, Acked(b, k), db, held)
  {
    var b' := Acked(b, k);
    forall j | j in b'.acked ensures InInbox(c, b.stream, db, j) || Poisoned(b', j) {
      assert j == k || InInbox(c, b.stream, db, j) || Poisoned(b, j);
    }
    forall s | s in held ensures HeldFits(c, b', db, held[s]) {
      assert HeldFits(c, b, db, held[s]);
    }
  }

  lemma ProcessKeeps(db: Inbox, group: string, e: Envelope, verdict: Verdict)
    ensures var (db', result) := Process(db, group, e, verdict);
            db.rows.Keys <= db'.rows.Keys && (StageAfter(result) == Some(Committed) ==> e.eventId in db'.rows)
            && StageAfter(result) != Some(Isolated)
  {
  }

  lemma ConsumingProceed(c: Config, b: Broker, db: Inbox, held: map<string, Held>, s: string, stage: Option<Stage>)
    requires Consuming(c, b, db, held) && s in held && stage != Some(Isolated)
    requires stage == Some(Committed) ==> InInbox(c, b.stream, db, held[s].entry)
    ensures Consuming(c, b, db, Proceed(held, s, stage))
  {
    assert HeldFits(c, b, db, held[s]);
    ConsumingHeld(c, b, db, held, s, if stage.Some? then held[s].(stage := stage.value) else held[s]);
  }

  lemma ConsumingWork(c: Config, w: World, s: string, verdict: Verdict)
    requires Consuming(c, w.broker, w.db, w.held) && s in w.held && w.held[s].entry < |w.broker.stream|
    ensures var w' := WorkOne(c, w, s, verdict);
            Consuming(c, w'.broker, w'.db, w'.held)
  {
    var envelope := Decode(c.text, w.broker.stream[w.held[s].entry]);
    if envelope.None? {
      ConsumingProceed(c, w.broker, w.db, w.held, s, Some(Rejected));
    } else {
      var (db, result) := Process(w.db, c.group, envelope.value, verdict);
      ProcessKeeps(w.db, c.group, envelope.value, verdict);
      ConsumingInbox(c, w.broker, w.db, db, w.held);
      ConsumingProceed(c, w.broker, db, w.held, s, StageAfter(result));
    }
  }

  lemma ConsumingNext(c: Config, w: World, a: Action)
    requires OfConsumer(a) && Consuming(c, w.broker, w.db, w.held)
    ensures var w' := Next(c, w, a);
            Consuming(c, w'.broker, w'.db, w'.held)
  {
    var w' := Next(c, w, a);
    match a {
      case Read(s) =>
        if w' != w {
          ConsumingRead(c, w.broker, w.db, w.held);
          ConsumingHeld(c, w'.broker, w.db, w.held, s, w'.held[s]);
        }
      case Reclaim(s, k) =>
        if w' != w {
          ConsumingReclaim(c, w.broker, w.db, w.held, k);
          ConsumingHeld(c, w'.broker, w.db, w.held, s, w'.held[s]);
        }
      case Work(s, verdict) =>
        if s in w.held && w.held[s].stage.Received? && w.held[s].entry < |w.broker.stream| {
          ConsumingWork(c, w, s, verdict);
        }
      case Isolate(s, answer) =>
        if s in w.held && w.held[s].stage.Rejected? {
          ConsumingIsolated(c, w, s, answer);
        }
      case Acknowledge(s, ok) =>
        if s in w.held && (w.held[s].stage.Committed? || w.held[s].stage.Isolated?) {
          assert HeldFits(c, w.broker, w.db, w.held[s]);
          ConsumingAck(c, w.broker, w.db, w.held, w.held[s].entry);
          ConsumingHeld(c, w'.broker, w.db, w.held, s, w.held[s].(stage := Received));
        }
      case CrashConsumer(s) =>
        if s in w.held {
          ConsumingHeld(c, w.broker, w.db, w.held, s, w.held[s]);
        }
    }
  }

  lemma ConsumingIsolated(c: Config, w: World, s: string, answer: Isolation)
    requires Consuming(c, w.broker, w.db, w.held) && s in w.held && w.held[s].stage.Rejected?
    ensures var w' := ConsumerNext(c, w, Isolate(s, answer));
            Consuming(c, w'.broker, w'.db, w'.held)
  {
    var h, w' := w.held[s], ConsumerNext(c, w, Isolate(s, answer));
    assert HeldFits(c, w.broker, w.db, h);
    ConsumingHeld(c, w.broker, w.db, w.held, s, h);
    if h.count >= c.maxDeliveries && !answer.NotWritten? {
      ConsumingIsolate(c, w.broker, w.db, w.held, h.entry, h.count);
      assert HeldFits(c, w'.broker, w.db, h);
      ConsumingHeld(c, w'.broker, w.db, w.held, s, if answer.Written? then h.(stage := Isolated) else h);
    }
  }

  // ---------- the inbox applies each event once ----------

  ghost predicate RowTraceable(c: Config, facts: map<int, EventData>, db: Inbox, e: string) {
    && e in db.rows && db.binding == Some(c.group)
    && exists id :: id in facts && e == FormatInt(id) && db.rows[e] == RowOf(c.group, NewEnvelope(id, facts[id]))
  }

  /** Each event's effects number one if it is in the inbox and none otherwise. */
  ghost predicate Once(db: Inbox) {
    forall e :: multiset(db.effects)[e] == if e in db.rows then 1 else 0
  }

  ghost predicate InboxFits(c: Config, facts: map<int, EventData>, db: Inbox) {
    Once(db) && forall e :: e in db.rows ==> RowTraceable(c, facts, db, e)
  }

  /** What the inbox keeps of an event. */
  ghost predicate SameEvent(e: Envelope, id: int, data: EventData) {
    var sent := NewEnvelope(id, data);
    e.eventId == sent.eventId && e.aggregateId == sent.aggregateId && e.aggregateVersion == sent.aggregateVersion
  }

  lemma EntryOfEvent(c: Config, w: World, k: nat)
    requires Traceable(c, w) && k < |w.broker.stream| && Decode(c.text, w.broker.stream[k]).Some?
    ensures exists id :: id in w.facts && SameEvent(Decode(c.text, w.broker.stream[k]).value, id, w.facts[id])
  {
    var id :| id in w.facts && w.broker.stream[k] == EventFields(c, w.facts, id);
    EnvelopeRoundTrip(c.text, NewEnvelope(id, w.facts[id]));
  }

  lemma RecordedOnce(db: Inbox, group: string, e: Envelope)
    requires Once(db) && e.eventId !in db.rows
    ensures Once(Recorded(db, group, e))
  {
    assert multiset(db.effects + [e.eventId]) == multiset(db.effects) + multiset{e.eventId};
  }

  lemma InboxProcess(c: Config, facts: map<int, EventData>, db: Inbox, e: Envelope, id: int, verdict: Verdict)
    requires InboxFits(c, facts, db) && id in facts && SameEvent(e, id, facts[id])
    ensures InboxFits(c, facts, Process(db, c.group, e, verdict).0)
    ensures Process(db, c.group, e, verdict).1 != MetadataMismatch
    ensures Process(db, c.group, e, verdict).1.GroupMismatch? <==> db.binding.Some? && db.binding.value != c.group
  {
    var bound, db' := Bound(db, c.group), Process(db, c.group, e, verdict).0;
    if e.eventId in db.rows {
      assert RowTraceable(c, facts, db, e.eventId);
      var id' :| id' in facts && e.eventId == FormatInt(id') && db.rows[e.eventId] == RowOf(c.group, NewEnvelope(id', facts[id']));
      FormatIntInjective(id, id');
    } else {
      RecordedOnce(bound, c.group, e);
      forall x | x in db'.rows ensures RowTraceable(c, facts, db', x) {
        if x in db.rows {
          assert RowTraceable(c, facts, db, x);
        }
      }
    }
  }

  lemma InboxNext(c: Config, w: World, a: Action)
    requires Traceable(c, w) && InboxFits(c, w.facts, w.db)
    ensures InboxFits(c, Next(c, w, a).facts, Next(c, w, a).db)
  {
    if OfConsumer(a) {
      StreamUntouched(c, w, a);
      if a.Work? && a.consumer in w.held && w.held[a.consumer].stage.Received? && w.held[a.consumer].entry < |w.broker.stream| {
        InboxWork(c, w, a.consumer, a.verdict);
      }
    } else {
      StreamExtended(c, w, a);
      InboxFactsGrow(c, w.facts, Next(c, w, a).facts, w.db);
    }
  }

  lemma InboxWork(c: Config, w: World, s: string, verdict: Verdict)
    requires Traceable(c, w) && InboxFits(c, w.facts, w.db)
    requires s in w.held && w.held[s].entry < |w.broker.stream|
    ensures InboxFits(c, w.facts, WorkOne(c, w, s, verdict).db)
  {
    var k := w.held[s].entry;
    if Decode(c.text, w.broker.stream[k]).Some? {
      EntryOfEvent(c, w, k);
      var e := Decode(c.text, w.broker.stream[k]).value;
      var id :| id in w.facts && SameEvent(e, id, w.facts[id]);
      InboxProcess(c, w.facts, w.db, e, id, verdict);
    }
  }

  lemma InboxFactsGrow(c: Config, facts: map<int, EventData>, facts': map<int, EventData>, db: Inbox)
    requires InboxFits(c, facts, db) && forall id :: id in facts ==> id in facts' && facts'[id] == facts[id]
    ensures InboxFits(c, facts', db)
  {
    forall e | e in db.rows ensures RowTraceable(c, facts', db, e) {
      assert RowTraceable(c, facts, db, e);
    }
  }

  // ---------- every reachable state ----------

  ghost predicate Inv(c: Config, w: World) {
    Outbox(c, w) && Traceable(c, w) && Consuming(c, w.broker, w.db, w.held) && InboxFits(c, w.facts, w.db)
  }

  lemma InvStart(c: Config, binding: Option<string>)
    ensures Inv(c, Start(binding))
  {
  }

  lemma InvNext(c: Config, w: World, a: Action)
    requires Inv(c, w)
    ensures Inv(c, Next(c, w, a))
  {
    OutboxNext(c, w, a);
    TraceableNext(c, w, a);
    InboxNext(c, w, a);
    if OfConsumer(a) {
      ConsumingNext(c, w, a);
    } else {
      StreamExtended(c, w, a);
      ConsumingExtended(c, w.broker, w.db, w.held, Next(c, w, a).broker.stream);
    }
  }

  lemma {:induction false} AlwaysInv(c: Config, binding: Option<string>, actions: seq<Action>)
    ensures Inv(c, Run(c, Start(binding), actions))
  {
    if actions == [] {
      InvStart(c, binding);
    } else {
      AlwaysInv(c, binding, actions[..|actions| - 1]);
      InvNext(c, Run(c, Start(binding), actions[..|actions| - 1]), actions[|actions| - 1]);
    }
  }

  // ---------- why an entry is isolated ----------

  /** At some point of the run a consumer that held this entry was told by the handler that it is rejected for good. */
  ghost predicate RefusedForGood(c: Config, start: World, actions: seq<Action>, k: nat) {
    exists n :: 0 <= n < |actions| && RefusesAt(c, start, actions, n, k)
  }

  ghost predicate RefusesAt(c: Config, start: World, actions: seq<Action>, n: nat, k: nat)
    requires n < |actions|
  {
    var w, a := Run(c, start, actions[..n]), actions[n];
    a.Work? && a.verdict.RejectsForGood? && a.consumer in w.held && w.held[a.consumer].entry == k && w.held[a.consumer].stage.Received?
  }

  /** The entry does not decode, or was rejected for good. */
  ghost predicate Hopeless(c: Config, start: World, actions: seq<Action>, k: nat) {
    var stream := Run(c, start, actions).broker.stream;
    (k < |stream| && Decode(c.text, stream[k]).None?) || RefusedForGood(c, start, actions, k)
  }

  /** Only hopeless entries are isolated or about to be. */
  ghost predicate Justified(c: Config, start: World, actions: seq<Action>) {
    var w := Run(c, start, actions);
    && (forall i :: 0 <= i < |w.broker.poison| ==> Hopeless(c, start, actions, w.broker.poison[i].entry))
    && (forall s :: s in w.held && w.held[s].stage.Rejected? ==> Hopeless(c, start, actions, w.held[s].entry))
  }

  lemma HopelessStays(c: Config, start: World, actions: seq<Action>, k: nat)
    requires actions != [] && Hopeless(c, start, actions[..|actions| - 1], k)
    ensures Hopeless(c, start, actions, k)
  {
    var before := actions[..|actions| - 1];
    var w, a := Run(c, start, before), actions[|actions| - 1];
    if OfConsumer(a) {
      StreamUntouched(c, w, a);
    } else {
      StreamExtended(c, w, a);
    }
    if RefusedForGood(c, start, before, k) {
      var n :| 0 <= n < |before| && RefusesAt(c, start, before, n, k);
      assert actions[..n] == before[..n] && RefusesAt(c, start, actions, n, k);
    }
  }

  /** Work is what rejects, and it rejects what does not decode or what the handler refuses. */
  lemma WorkRejects(c: Config, w: World, s: string, verdict: Verdict)
    requires s in w.held && w.held[s].entry < |w.broker.stream|
    ensures var w' := WorkOne(c, w, s, verdict);
            && w'.broker == w.broker && (forall x :: x in w'.held && x != s ==> x in w.held && w'.held[x] == w.held[x])
            && (s in w'.held ==>
                  && w'.held[s].entry == w.held[s].entry
                  && (w'.held[s].stage.Rejected? ==> Decode(c.text, w.broker.stream[w.held[s].entry]).None? || verdict.RejectsForGood?))
  {
  }

  /** What else a step can add to the isolated or rejected entries: one that a consumer had already rejected. */
  lemma StepRejects(c: Config, w: World, a: Action)
    requires !a.Work?
    ensures var w' := Next(c, w, a);
            && (forall s :: s in w'.held && w'.held[s].stage.Rejected? ==> s in w.held && w.held[s] == w'.held[s])
            && w.broker.poison <= w'.broker.poison
            && (forall i :: |w.broker.poison| <= i < |w'.broker.poison| ==>
                  exists s :: s in w.held && w.held[s].stage.Rejected? && w.held[s].entry == w'.broker.poison[i].entry)
  {
    if a.Isolate? && a.consumer in w.held && w.held[a.consumer].stage.Rejected? {
      assert w.held[a.consumer].stage.Rejected?;
    }
  }

  lemma JustifiedWork(c: Config, start: World, actions: seq<Action>)
    requires actions != [] && actions[|actions| - 1].Work? && Justified(c, start, actions[..|actions| - 1])
    ensures Justified(c, start, actions)
  {
    var n := |actions| - 1;
    var w, a, w' := Run(c, start, actions[..n]), actions[n], Run(c, start, actions);
    forall k | Hopeless(c, start, actions[..n], k) ensures Hopeless(c, start, actions, k) {
      HopelessStays(c, start, actions, k);
    }
    if a.consumer in w.held && w.held[a.consumer].stage.Received? && w.held[a.consumer].entry < |w.broker.stream| {
      WorkRejects(c, w, a.consumer, a.verdict);
      if a.verdict.RejectsForGood? {
        assert RefusesAt(c, start, actions, n, w.held[a.consumer].entry);
      }
    }
  }

  lemma JustifiedStep(c: Config, start: World, actions: seq<Action>)
    requires actions != [] && !actions[|actions| - 1].Work? && Justified(c, start, actions[..|actions| - 1])
    ensures Justified(c, start, actions)
  {
    var n := |actions| - 1;
    var w, w' := Run(c, start, actions[..n]), Run(c, start, actions);
    StepRejects(c, w, actions[n]);
    forall k | Hopeless(c, start, actions[..n], k) ensures Hopeless(c, start, actions, k) {
      HopelessStays(c, start, actions, k);
    }
    forall i | 0 <= i < |w'.broker.poison| ensures Hopeless(c, start, actions, w'.broker.poison[i].entry) {
      if i < |w.broker.poison| {
        assert w.broker.poison[i] == w'.broker.poison[i];
      }
    }
  }

  lemma {:induction false} AlwaysJustified(c: Config, binding: Option<string>, actions: seq<Action>)
    ensures Justified(c, Start(binding), actions)
  {
    if actions != [] {
      AlwaysJustified(c, binding, actions[..|actions| - 1]);
      if actions[|actions| - 1].Work? {
        JustifiedWork(c, Start(binding), actions);
      } else {
        JustifiedStep(c, Start(binding), actions);
      }
    }
  }

  /** The entry was isolated, and not before enough deliveries. */
  ghost predicate IsolatedAfter(b: Broker, k: nat, deliveries: nat) {
    exists i :: 0 <= i < |b.poison| && b.poison[i].entry == k && b.poison[i].count >= deliveries
  }

  /**
    No event is lost: it is still an unpublished row, or it has a stream entry. Every entry is yet to
    be read, pending or acknowledged; and what is acknowledged was recorded, or isolated after enough
    deliveries because it does not decode or because the handler rejected it for good. Nothing else is isolated.
  */
  lemma NoEventLost(c: Config, binding: Option<string>, actions: seq<Action>)
    ensures var w := Run(c, Start(binding), actions);
            && (forall id :: id in w.facts ==>
                  (id in w.table && !w.table[id].published) || InStream(c, w.facts, w.broker.stream, id))
            && (forall k :: 0 <= k < |w.broker.stream| ==> k >= w.broker.cursor || k in w.broker.pending || k in w.broker.acked)
            && (forall k :: k in w.broker.acked ==>
                  || InInbox(c, w.broker.stream, w.db, k)
                  || (IsolatedAfter(w.broker, k, c.maxDeliveries) && Hopeless(c, Start(binding), actions, k)))
            && (forall i :: 0 <= i < |w.broker.poison| ==>
                  w.broker.poison[i].count >= c.maxDeliveries && Hopeless(c, Start(binding), actions, w.broker.poison[i].entry))
  {
    AlwaysInv(c, binding, actions);
    AlwaysJustified(c, binding, actions);
    var w := Run(c, Start(binding), actions);
    forall k | k in w.broker.acked && !InInbox(c, w.broker.stream, w.db, k)
      ensures IsolatedAfter(w.broker, k, c.maxDeliveries) && Hopeless(c, Start(binding), actions, k)
    {
      assert Poisoned(w.broker, k);
    }
  }

  /** A row marked published has its entry in the stream, and an event's effects number exactly its inbox rows: none or one. */
  lemma PublishedAndAppliedOnce(c: Config, binding: Option<string>, actions: seq<Action>)
    ensures var w := Run(c, Start(binding), actions);
            && (forall id :: id in w.table && w.table[id].published ==> InStream(c, w.facts, w.broker.stream, id))
            && (forall e :: multiset(w.db.effects)[e] == if e in w.db.rows then 1 else 0)
  {
    AlwaysInv(c, binding, actions);
  }

  /** Processing an entry never finds another aggregate under its event id, and finds another group only if the inbox is bound to one. */
  lemma MetadataNeverMismatches(c: Config, binding: Option<string>, actions: seq<Action>, k: nat, verdict: Verdict)
    requires var w := Run(c, Start(binding), actions);
             k < |w.broker.stream| && Decode(c.text, w.broker.stream[k]).Some?
    ensures var w := Run(c, Start(binding), actions);
            var result := Process(w.db, c.group, Decode(c.text, w.broker.stream[k]).value, verdict).1;
            && !result.MetadataMismatch?
            && (result.GroupMismatch? <==> w.db.binding.Some? && w.db.binding.value != c.group)
  {
    AlwaysInv(c, binding, actions);
    var w := Run(c, Start(binding), actions);
    EntryOfEvent(c, w, k);
    var e := Decode(c.text, w.broker.stream[k]).value;
    var id :| id in w.facts && SameEvent(e, id, w.facts[id]);
    InboxProcess(c, w.facts, w.db, e, id, verdict);
  }
}
