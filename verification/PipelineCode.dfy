/**
  The code that takes the pipeline's steps: one publish round, the inbox processor and the
  consumer's handling of one message. Each method computes a function of the state, and each
  function is a sequence of actions of the state machine, so what that machine keeps, the code
  keeps. Failures are parameters: what the broker, the database or the handler answered.
*/
module PipelineCode {
  import opened Wrappers
  import opened Identity
  import opened OutboxEnvelope
  import opened EventPipeline

  // ---------- one publish round ----------

  datatype Progress = Progress(table: Table, stream: seq<Fields>, ok: set<int>)

  /** The batch mark took effect and was answered, took effect unheard, or did not. */
  datatype MarkAnswer = Heard | Unheard | NotMarked

  /**
    What a round was answered: a delivery per event, the event before which it was cancelled, the batch
    mark, and the events whose claim could be dropped after a cancellation or a failed mark.
  */
  datatype RoundAnswers = RoundAnswers(deliveries: seq<Delivery>, cancelledAt: nat, mark: MarkAnswer, released: set<int>)

  function AfterCancel(r: Progress, id: int, ok: bool): Progress {
    if ok then r.(table := Released(r.table, {id})) else r
  }

  function AfterEvent(c: Config, facts: map<int, EventData>, r: Progress, id: int, delivery: Delivery): Progress
    requires id in facts
  {
    var stream := if WasAppended(delivery) then r.stream + [EventFields(c, facts, id)] else r.stream;
    if delivery.Acknowledged? then Progress(r.table, stream, r.ok + {id}) else Progress(AfterFailure(r.table, id, delivery), stream, r.ok)
  }

  function AfterEvents(c: Config, facts: map<int, EventData>, start: Progress, batch: seq<int>, answers: RoundAnswers): Progress
    requires |answers.deliveries| >= |batch| && forall id :: id in batch ==> id in facts
  {
    if batch == [] then start
    else
      var n := |batch| - 1;
      var r := AfterEvents(c, facts, start, batch[..n], answers);
      if n >= answers.cancelledAt then AfterCancel(r, batch[n], batch[n] in answers.released)
      else AfterEvent(c, facts, r, batch[n], answers.deliveries[n])
  }

  function AfterMark(r: Progress, answers: RoundAnswers): Table {
    if answers.mark.NotMarked? then Released(r.table, r.ok * answers.released) else Marked(r.table, r.ok)
  }

  function Members(batch: seq<int>): set<int> {
    set id | id in batch
  }

  function Remaining(batch: seq<int>, n: nat): set<int>
    requires n <= |batch|
  {
    Members(batch) - Members(batch[..n])
  }

  lemma ReleasedTwice(table: Table, ids: set<int>, id: int)
    ensures Released(Released(table, ids), {id}) == Released(table, ids + {id})
    ensures Released(table, ids) == Released(table, ids + {})
  {
    assert ids + {} == ids;
  }

  class Publisher {
    const config: Config
    var table: Table
    var stream: seq<Fields>

    constructor (config: Config, table: Table, stream: seq<Fields>)
      ensures this.config == config && this.table == table && this.stream == stream
    {
      this.config, this.table, this.stream := config, table, stream;
    }

    method DeliverOne(id: int, data: EventData, delivery: Delivery) returns (ok: bool)
      modifies this
      ensures ok == delivery.Acknowledged?
      ensures stream == if WasAppended(delivery) then old(stream) + [FieldsOf(config.text, NewEnvelope(id, data))] else old(stream)
      ensures table == if ok then old(table) else AfterFailure(old(table), id, delivery)
    {
      var envelope := NewEnvelope(id, data);
      if WasAppended(delivery) {
        stream := stream + [FieldsOf(config.text, envelope)];
      }
      if !delivery.Acknowledged? {
        if delivery.counted && id in table && !table[id].published {
          table := table[id := table[id].(attempts := table[id].attempts + 1)];
        }
        ReleaseClaim(id, delivery.released);
        return false;
      }
      return true;
    }

    method ReleaseClaim(id: int, ok: bool)
      modifies this`table
      ensures table == if ok then Released(old(table), {id}) else old(table)
    {
      if ok && id in table && !table[id].published {
        table := table[id := table[id].(claimed := false)];
        assert table == Released(old(table), {id});
      } else if ok {
        assert table == Released(table, {id});
      }
    }

    method ReleaseEach(events: seq<int>, released: set<int>)
      modifies this`table
      ensures table == Released(old(table), Members(events) * released)
    {
      assert table == Released(table, {});
      for i := 0 to |events|
        invariant table == Released(old(table), Members(events[..i]) * released)
      {
        assert Members(events[..i + 1]) == Members(events[..i]) + {events[i]};
        ReleasedTwice(old(table), Members(events[..i]) * released, events[i]);
        assert Members(events[..i + 1]) * released
               == Members(events[..i]) * released + if events[i] in released then {events[i]} else {};
        ReleaseClaim(events[i], events[i] in released);
      }
      assert events[..|events|] == events;
    }

    /** A mark that fails or is not heard of is followed by dropping the claims, which touches no published row. */
    method MarkBatch(okEvents: seq<int>, answers: RoundAnswers)
      modifies this`table
      ensures table == AfterMark(Progress(old(table), stream, Members(okEvents)), answers)
    {
      if okEvents == [] {
        assert Marked(table, {}) == table && Released(table, {} * answers.released) == table;
        return;
      }
      if !answers.mark.NotMarked? {
        table := Marked(table, Members(okEvents));
      }
      if !answers.mark.Heard? {
        ReleaseEach(okEvents, answers.released);
      }
    }

    /** `facts` is what the claimed rows were read with. */
    method PublishRound(facts: map<int, EventData>, batch: seq<int>, answers: RoundAnswers)
      requires |answers.deliveries| >= |batch| && forall id :: id in batch ==> id in facts
      modifies this
      ensures var start := Progress(Claimed(old(table), Members(batch)), old(stream), {});
              var r := AfterEvents(config, facts, start, batch, answers);
              stream == r.stream && table == AfterMark(r, answers)
    {
      var okEvents := [];
      table := Claimed(table, Members(batch));
      ghost var start := Progress(table, stream, {});
      for i := 0 to |batch|
        invariant AfterEvents(config, facts, start, batch[..i], answers) == Progress(table, stream, Members(okEvents))
      {
        assert batch[..i + 1][..i] == batch[..i];
        if i >= answers.cancelledAt {
          ReleaseClaim(batch[i], batch[i] in answers.released);
        } else {
          var ok := DeliverOne(batch[i], facts[batch[i]], answers.deliveries[i]);
          if ok {
            assert Members(okEvents + [batch[i]]) == Members(okEvents) + {batch[i]};
            okEvents := okEvents + [batch[i]];
          }
        }
      }
      assert batch[..|batch|] == batch;
      MarkBatch(okEvents, answers);
    }
  }

  function EventAction(publisher: string, batch: seq<int>, n: nat, answers: RoundAnswers): Action
    requires n < |batch| <= |answers.deliveries|
  {
    if n >= answers.cancelledAt then GiveUp(publisher, batch[n], batch[n] in answers.released)
    else Deliver(publisher, batch[n], answers.deliveries[n])
  }

  function RoundActions(publisher: string, batch: seq<int>, answers: RoundAnswers): seq<Action>
    requires |answers.deliveries| >= |batch|
  {
    if batch == [] then []
    else
      var n := |batch| - 1;
      RoundActions(publisher, batch[..n], answers)
      + [EventAction(publisher, batch, n, answers)]
  }

  function MarkAction(publisher: string, answers: RoundAnswers): Action {
    Mark(publisher, !answers.mark.NotMarked?, answers.released)
  }

  ghost predicate InRound(w: World, w0: World, publisher: string, left: set<int>, r: Progress) {
    && w.table == r.table && w.broker == w0.broker.(stream := r.stream) && w.facts == w0.facts && w.db == w0.db && w.held == w0.held
    && w.rounds == w0.rounds[publisher := Round(left, r.ok)]
  }

  lemma RunAppend(c: Config, w: World, actions: seq<Action>, last: Action)
    ensures Run(c, w, actions + [last]) == Next(c, Run(c, w, actions), last)
  {
    assert (actions + [last])[..|actions|] == actions;
  }

  lemma RoundStep(c: Config, w: World, w0: World, publisher: string, left: set<int>, r: Progress, batch: seq<int>, n: nat,
                  answers: RoundAnswers)
    requires n < |batch| <= |answers.deliveries| && batch[n] in w.facts && batch[n] in left
    requires InRound(w, w0, publisher, left, r)
    ensures var r' := if n >= answers.cancelledAt then AfterCancel(r, batch[n], batch[n] in answers.released)
                      else AfterEvent(c, w.facts, r, batch[n], answers.deliveries[n]);
            InRound(Next(c, w, EventAction(publisher, batch, n, answers)), w0, publisher, left - {batch[n]}, r')
  {
  }

  lemma {:induction false} RoundSteps(c: Config, w: World, publisher: string, whole: seq<int>, n: nat, answers: RoundAnswers)
    requires n <= |whole| && |answers.deliveries| >= |whole| && (forall id :: id in whole ==> id in w.facts)
    requires forall i, j :: 0 <= i < j < |whole| ==> whole[i] != whole[j]
    requires publisher in w.rounds && w.rounds[publisher] == Round(Members(whole), {})
    ensures InRound(Run(c, w, RoundActions(publisher, whole[..n], answers)), w, publisher, Remaining(whole, n),
                    AfterEvents(c, w.facts, Progress(w.table, w.broker.stream, {}), whole[..n], answers))
  {
    if n == 0 {
      assert Remaining(whole, 0) == Members(whole);
    } else {
      var m := n - 1;
      RoundSteps(c, w, publisher, whole, m, answers);
      assert whole[..n][..m] == whole[..m] && whole[..n] == whole[..m] + [whole[m]];
      var before := Run(c, w, RoundActions(publisher, whole[..m], answers));
      var left := Remaining(whole, m);
      var r := AfterEvents(c, w.facts, Progress(w.table, w.broker.stream, {}), whole[..m], answers);
      assert whole[m] in left;
      RoundStep(c, before, w, publisher, left, r, whole, m, answers);
      assert EventAction(publisher, whole[..n], m, answers) == EventAction(publisher, whole, m, answers);
      RunAppend(c, w, RoundActions(publisher, whole[..m], answers), EventAction(publisher, whole, m, answers));
      assert left - {whole[m]} == Remaining(whole, n);
    }
  }

  lemma {:induction false} RunConcat(c: Config, w: World, first: seq<Action>, second: seq<Action>)
    ensures Run(c, w, first + second) == Run(c, Run(c, w, first), second)
  {
    if second == [] {
      assert first + second == first;
    } else {
      var n := |second| - 1;
      RunConcat(c, w, first, second[..n]);
      assert (first + second)[..|first + second| - 1] == first + second[..n];
    }
  }

  lemma FetchFirst(c: Config, w: World, publisher: string, batch: seq<int>)
    requires publisher !in w.rounds && forall id :: id in batch ==> Eligible(w.table, id)
    ensures Run(c, w, [Fetch(publisher, Members(batch))])
            == w.(table := Claimed(w.table, Members(batch)), rounds := w.rounds[publisher := Round(Members(batch), {})])
  {
    RunAppend(c, w, [], Fetch(publisher, Members(batch)));
    assert [] + [Fetch(publisher, Members(batch))] == [Fetch(publisher, Members(batch))];
  }

  lemma MarkLast(c: Config, w: World, w0: World, publisher: string, left: set<int>, r: Progress, answers: RoundAnswers)
    requires InRound(w, w0, publisher, left, r)
    ensures Next(c, w, MarkAction(publisher, answers))
            == w0.(table := AfterMark(r, answers), broker := w0.broker.(stream := r.stream), rounds := w0.rounds - {publisher})
  {
  }

  /** A whole round of the code is a run of the machine: it claims, takes one step per event and marks. */
  lemma RoundIsRun(c: Config, w: World, publisher: string, batch: seq<int>, answers: RoundAnswers)
    requires |answers.deliveries| >= |batch| && publisher !in w.rounds && (forall id :: id in batch ==> id in w.facts && Eligible(w.table, id))
    requires forall i, j :: 0 <= i < j < |batch| ==> batch[i] != batch[j]
    ensures var ids := Members(batch);
            var actions := [Fetch(publisher, ids)] + RoundActions(publisher, batch, answers) + [MarkAction(publisher, answers)];
            var r := AfterEvents(c, w.facts, Progress(Claimed(w.table, ids), w.broker.stream, {}), batch, answers);
            Run(c, w, actions) == w.(table := AfterMark(r, answers), broker := w.broker.(stream := r.stream))
  {
    var fetch, middle := [Fetch(publisher, Members(batch))], RoundActions(publisher, batch, answers);
    FetchFirst(c, w, publisher, batch);
    var w1 := Run(c, w, fetch);
    RunConcat(c, w, fetch, middle);
    RunAppend(c, w, fetch + middle, MarkAction(publisher, answers));
    RoundSteps(c, w1, publisher, batch, |batch|, answers);
    assert batch[..|batch|] == batch;
    var r := AfterEvents(c, w1.facts, Progress(w1.table, w1.broker.stream, {}), batch, answers);
    MarkLast(c, Run(c, w1, middle), w1, publisher, Remaining(batch, |batch|), r, answers);
    assert w1.rounds - {publisher} == w.rounds;
  }

  // ---------- the inbox processor ----------

  class InboxProcessor {
    const group: string
    var bound: bool
    var binding: Option<string>
    var rows: map<string, InboxRow>
    var effects: seq<string>

    constructor (group: string, db: Inbox)
      ensures this.group == group && !bound && View() == db && Valid()
    {
      this.group, bound := group, false;
      binding, rows, effects := db.binding, db.rows, db.effects;
    }

    function View(): Inbox
      reads this
    {
      Inbox(binding, rows, effects)
    }

    /** The remembered binding is the stored one; a binding row is never changed. */
    predicate Valid()
      reads this
    {
      bound ==> binding == Some(group)
    }

    method EnsureBinding() returns (ok: bool)
      requires Valid()
      modifies this
      ensures Valid() && ok == (Bound(old(View()), group).binding == Some(group))
      ensures View() == if ok then Bound(old(View()), group) else old(View())
    {
      if bound {
        return true;
      }
      var before := binding;
      if binding == None {
        binding := Some(group);
      }
      if binding != Some(group) {
        binding := before;
        return false;
      }
      bound := true;
      return true;
    }

    /** The insert decides whether the event is new before the handler runs; a failed transaction leaves no row. */
    method ProcessEnvelope(e: Envelope, verdict: Verdict) returns (result: Processed)
      requires Valid()
      modifies this
      ensures Valid() && (View(), result) == Process(old(View()), group, e, verdict)
    {
      var ok := EnsureBinding();
      if !ok {
        return GroupMismatch;
      }
      var before := rows;
      var duplicate := e.eventId in rows;
      if !duplicate {
        rows := rows[e.eventId := InboxRow(group, e.aggregateId, e.aggregateVersion)];
      }
      if duplicate {
        var existing := rows[e.eventId];
        if existing.group != group {
          return GroupMismatch;
        }
        if existing.aggregateId != e.aggregateId || existing.aggregateVersion != e.aggregateVersion {
          return MetadataMismatch;
        }
        return Duplicate;
      }
      if verdict.RejectsForGood? || verdict.FailsForNow? {
        rows := before;
        return if verdict.RejectsForGood? then PermanentError else TransientError;
      }
      effects := effects + [e.eventId];
      return if verdict.Commits? then Applied else TransientError;
    }
  }

  // ---------- one message ----------

  datatype Message = Message(entry: nat, envelope: Option<Envelope>, count: nat)

  datatype Answers = Answers(verdict: Verdict, quarantined: Isolation, acknowledged: bool)

  datatype Handling = Handling(broker: Broker, db: Inbox)

  function AfterRejection(c: Config, b: Broker, m: Message, a: Answers): Broker {
    if m.count < c.maxDeliveries || a.quarantined.NotWritten? then b
    else if a.quarantined.Written? && a.acknowledged then Acked(Quarantined(b, m.entry, m.count), m.entry)
    else Quarantined(b, m.entry, m.count)
  }

  function Handle(c: Config, b: Broker, db: Inbox, m: Message, a: Answers): Handling {
    if m.envelope.None? then Handling(AfterRejection(c, b, m, a), db)
    else
      var (db', result) := Process(db, c.group, m.envelope.value, a.verdict);
      match StageAfter(result)
      case Some(Committed) => Handling(if a.acknowledged then Acked(b, m.entry) else b, db')
      case Some(_) => Handling(AfterRejection(c, b, m, a), db')
      case None => Handling(b, db')
  }

  class Consumer {
    const config: Config
    const processor: InboxProcessor
    var broker: Broker

    constructor (config: Config, processor: InboxProcessor, broker: Broker)
      requires processor.group == config.group
      ensures this.config == config && this.processor == processor && this.broker == broker
    {
      this.config, this.processor, this.broker := config, processor, broker;
    }

    method HandlePermanent(m: Message, a: Answers)
      modifies this
      ensures broker == AfterRejection(config, old(broker), m, a)
    {
      if m.count < config.maxDeliveries {
        return;
      }
      if !a.quarantined.NotWritten? {
        broker := Quarantined(broker, m.entry, m.count);
      }
      if !a.quarantined.Written? {
        return;
      }
      if !a.acknowledged {
        return;
      }
      broker := Acked(broker, m.entry);
    }

    method HandleMessage(m: Message, a: Answers)
      requires processor.Valid() && processor.group == config.group
      modifies this, processor
      ensures processor.Valid() && Handling(broker, processor.View()) == Handle(config, old(broker), old(processor.View()), m, a)
    {
      if m.envelope.None? {
        HandlePermanent(m, a);
        return;
      }
      var result := processor.ProcessEnvelope(m.envelope.value, a.verdict);
      if result.PermanentError? {
        HandlePermanent(m, a);
        return;
      }
      if !result.Applied? && !result.Duplicate? {
        return;
      }
      if !a.acknowledged {
        return;
      }
      broker := Acked(broker, m.entry);
    }
  }

  /** The consumer's memory is empty again after a message, however it ended. */
  function Settle(w: World, consumer: string, h: Handling): World {
    w.(broker := h.broker, db := h.db, held := w.held - {consumer})
  }

  lemma RejectedIsRun(c: Config, w: World, s: string, a: Answers)
    requires s in w.held && w.held[s].stage.Rejected?
    ensures var m := Message(w.held[s].entry, None, w.held[s].count);
            Next(c, Next(c, w, Isolate(s, a.quarantined)), Acknowledge(s, a.acknowledged))
            == Settle(w, s, Handling(AfterRejection(c, w.broker, m, a), w.db))
  {
    var w1 := Next(c, w, Isolate(s, a.quarantined));
    assert w1.held - {s} == w.held - {s};
  }

  lemma CommittedIsRun(c: Config, w: World, s: string, a: Answers)
    requires s in w.held && w.held[s].stage.Committed?
    ensures Next(c, Next(c, w, Isolate(s, a.quarantined)), Acknowledge(s, a.acknowledged))
            == Settle(w, s, Handling(if a.acknowledged then Acked(w.broker, w.held[s].entry) else w.broker, w.db))
  {
    assert Next(c, w, Isolate(s, a.quarantined)) == w;
  }

  lemma AbandonedIsRun(c: Config, w: World, s: string, a: Answers)
    requires s !in w.held
    ensures Next(c, Next(c, w, Isolate(s, a.quarantined)), Acknowledge(s, a.acknowledged)) == w
  {
    assert Next(c, w, Isolate(s, a.quarantined)) == w;
  }

  lemma ThreeSteps(c: Config, w: World, first: Action, second: Action, third: Action)
    ensures Run(c, w, [first, second, third]) == Next(c, Next(c, Next(c, w, first), second), third)
  {
    RunAppend(c, w, [], first);
    RunAppend(c, w, [first], second);
    RunAppend(c, w, [first, second], third);
    assert [] + [first] == [first] && [first] + [second] == [first, second] && [first, second] + [third] == [first, second, third];
  }

  /** The state after working on an entry, and where the consumer then stands. */
  lemma WorkedOn(c: Config, w: World, s: string, a: Answers)
    requires s in w.held && w.held[s].stage.Received? && w.held[s].entry < |w.broker.stream|
    ensures var w1, envelope := Next(c, w, Work(s, a.verdict)), Decode(c.text, w.broker.stream[w.held[s].entry]);
            var stage := if envelope.None? then Some(Rejected) else StageAfter(Process(w.db, c.group, envelope.value, a.verdict).1);
            && w1 == w.(db := w1.db, held := Proceed(w.held, s, stage))
            && w1.db == (if envelope.None? then w.db else Process(w.db, c.group, envelope.value, a.verdict).0)
            && w1.held - {s} == w.held - {s}
            && stage != Some(Isolated) && stage != Some(Received)
  {
  }

  /** Handling a delivered message is a run of the machine: work on it, isolate it if it was rejected, acknowledge it. */
  lemma HandleIsRun(c: Config, w: World, s: string, a: Answers)
    requires s in w.held && w.held[s].stage.Received? && w.held[s].entry < |w.broker.stream|
    ensures var h := w.held[s];
            var m := Message(h.entry, Decode(c.text, w.broker.stream[h.entry]), h.count);
            Run(c, w, [Work(s, a.verdict), Isolate(s, a.quarantined), Acknowledge(s, a.acknowledged)])
            == Settle(w, s, Handle(c, w.broker, w.db, m, a))
  {
    ThreeSteps(c, w, Work(s, a.verdict), Isolate(s, a.quarantined), Acknowledge(s, a.acknowledged));
    WorkedOn(c, w, s, a);
    var w1 := Next(c, w, Work(s, a.verdict));
    if s !in w1.held {
      AbandonedIsRun(c, w1, s, a);
    } else if w1.held[s].stage.Rejected? {
      RejectedIsRun(c, w1, s, a);
    } else {
      CommittedIsRun(c, w1, s, a);
    }
  }

  // ---------- what a message ends in ----------

  /** The inbox is this group's, or nobody's yet. */
  predicate Ours(c: Config, db: Inbox) {
    db.binding.None? || db.binding.value == c.group
  }

  /** Delivered at least as often as an entry must be before it is given up. */
  predicate Worn(c: Config, m: Message) {
    m.count >= c.maxDeliveries
  }

  /** The broker after the consumer acknowledged the pending entry. */
  predicate Done(b: Broker, b': Broker, k: nat) {
    && b'.stream == b.stream && b'.cursor == b.cursor
    && b'.pending == b.pending - {k} && b'.acked == b.acked + {k}
  }

  predicate SameRecords(db: Inbox, db': Inbox) {
    db'.rows == db.rows && db'.effects == db.effects
  }

  /** An event new to this group's inbox: applied once, left for redelivery, or given up, as the handler decides. */
  lemma NewEventHandled(c: Config, b: Broker, db: Inbox, m: Message, a: Answers)
    requires m.entry in b.pending && m.envelope.Some? && Ours(c, db) && m.envelope.value.eventId !in db.rows
    ensures var e, h := m.envelope.value, Handle(c, b, db, m, a);
            && h.db.binding == Some(c.group)
            && (a.verdict.Commits? || a.verdict.CommitsUnheard? ==>
                  && h.db.rows == db.rows[e.eventId := InboxRow(c.group, e.aggregateId, e.aggregateVersion)]
                  && h.db.effects == db.effects + [e.eventId])
            && (a.verdict.Commits? ==> if a.acknowledged then Done(b, h.broker, m.entry) && h.broker.poison == b.poison else h.broker == b)
            && (a.verdict.FailsForNow? || a.verdict.CommitsUnheard? ==> h.broker == b)
            && (a.verdict.FailsForNow? || a.verdict.RejectsForGood? ==> SameRecords(db, h.db))
            && (a.verdict.RejectsForGood? ==> GivenUp(c, b, h.broker, m, a))
  {
  }

  /** A rejected entry: kept until it was delivered often enough, then isolated, and acknowledged once that is known. */
  predicate GivenUp(c: Config, b: Broker, b': Broker, m: Message, a: Answers) {
    if !Worn(c, m) || a.quarantined.NotWritten? then b' == b
    else
      && b'.poison == b.poison + [Poison(m.entry, m.count)]
      && if a.quarantined.Written? && a.acknowledged then Done(b, b', m.entry) else b' == b.(poison := b'.poison)
  }

  /** An entry that does not decode never reaches the inbox and is given up. */
  lemma UndecodableHandled(c: Config, b: Broker, db: Inbox, m: Message, a: Answers)
    requires m.entry in b.pending && m.envelope.None?
    ensures var h := Handle(c, b, db, m, a);
            h.db == db && GivenUp(c, b, h.broker, m, a)
  {
  }

  /** An event the group has recorded is acknowledged again without any effect, whatever the handler would say. */
  lemma RepeatHandled(c: Config, b: Broker, db: Inbox, m: Message, a: Answers)
    requires m.entry in b.pending && m.envelope.Some? && db.binding == Some(c.group)
    requires var e := m.envelope.value;
             e.eventId in db.rows && db.rows[e.eventId] == InboxRow(c.group, e.aggregateId, e.aggregateVersion)
    ensures var h := Handle(c, b, db, m, a);
            && h.db == db
            && if a.acknowledged then Done(b, h.broker, m.entry) && h.broker.poison == b.poison else h.broker == b
  {
  }

  /** In another group's inbox, or under another aggregate's row, nothing is recorded and nothing acknowledged. */
  lemma StrangerHandled(c: Config, b: Broker, db: Inbox, m: Message, a: Answers)
    requires m.envelope.Some?
    requires var e := m.envelope.value;
             !Ours(c, db) || (e.eventId in db.rows && db.rows[e.eventId] != InboxRow(c.group, e.aggregateId, e.aggregateVersion))
    ensures var h := Handle(c, b, db, m, a);
            SameRecords(db, h.db) && h.broker == b && (!Ours(c, db) ==> h.db == db)
  {
  }

  // ---------- what a round ends in ----------

  /** A claimed row after its delivery and before the mark. */
  predicate RowFollows(row: Row, row': Row, id: int, i: nat, answers: RoundAnswers)
    requires i < |answers.deliveries|
  {
    var d := answers.deliveries[i];
    && row'.data == row.data && !row'.published
    && row'.claimed == (if i >= answers.cancelledAt then id !in answers.released else d.Acknowledged? || !d.released)
    && row'.attempts == row.attempts + if i < answers.cancelledAt && d.Unacknowledged? && d.counted then 1 else 0
  }

  predicate Succeeded(i: nat, answers: RoundAnswers)
    requires i < |answers.deliveries|
  {
    i < answers.cancelledAt && answers.deliveries[i].Acknowledged?
  }

  ghost predicate Followed(table: Table, r: Progress, batch: seq<int>, n: nat, answers: RoundAnswers)
    requires n <= |batch| <= |answers.deliveries|
  {
    && r.table.Keys == table.Keys
    && (forall i :: 0 <= i < |batch| ==> batch[i] in table)
    && (forall i :: 0 <= i < n ==> RowFollows(table[batch[i]], r.table[batch[i]], batch[i], i, answers))
    && (forall i :: n <= i < |batch| ==> r.table[batch[i]] == table[batch[i]].(claimed := true))
    && (forall id :: id in table && id !in batch ==> r.table[id] == table[id])
    && (forall i :: 0 <= i < n ==> (batch[i] in r.ok <==> Succeeded(i, answers)))
    && (forall id :: id in r.ok ==> id in batch[..n])
  }

  function AfterOne(c: Config, facts: map<int, EventData>, r: Progress, id: int, i: nat, answers: RoundAnswers): Progress
    requires id in facts && i < |answers.deliveries|
  {
    if i >= answers.cancelledAt then AfterCancel(r, id, id in answers.released) else AfterEvent(c, facts, r, id, answers.deliveries[i])
  }

  /** A batch as it is fetched: known events, each once, unpublished and unclaimed. */
  predicate Fetchable(facts: map<int, EventData>, table: Table, batch: seq<int>) {
    && (forall id :: id in batch ==> id in facts && Eligible(table, id))
    && forall i, j :: 0 <= i < j < |batch| ==> batch[i] != batch[j]
  }

  lemma RowFollowed(c: Config, facts: map<int, EventData>, table: Table, r: Progress, batch: seq<int>, n: nat, answers: RoundAnswers)
    requires n < |batch| <= |answers.deliveries| && Fetchable(facts, table, batch)
    requires Followed(table, r, batch, n, answers)
    ensures var r' := AfterOne(c, facts, r, batch[n], n, answers);
            && r'.table.Keys == r.table.Keys && RowFollows(table[batch[n]], r'.table[batch[n]], batch[n], n, answers)
            && (forall id :: id in table && id != batch[n] ==> r'.table[id] == r.table[id])
            && r'.ok == if Succeeded(n, answers) then r.ok + {batch[n]} else r.ok
  {
    assert batch[n] in batch && Eligible(table, batch[n]);
    assert r.table[batch[n]] == table[batch[n]].(claimed := true);
  }

  lemma EventFollowed(c: Config, facts: map<int, EventData>, table: Table, r: Progress, batch: seq<int>, n: nat, answers: RoundAnswers)
    requires n < |batch| <= |answers.deliveries| && Fetchable(facts, table, batch)
    requires Followed(table, r, batch, n, answers)
    ensures Followed(table, AfterOne(c, facts, r, batch[n], n, answers), batch, n + 1, answers)
  {
    RowFollowed(c, facts, table, r, batch, n, answers);
    var r' := AfterOne(c, facts, r, batch[n], n, answers);
    assert batch[..n + 1] == batch[..n] + [batch[n]];
    forall i | 0 <= i < n ensures RowFollows(table[batch[i]], r'.table[batch[i]], batch[i], i, answers) {
      assert batch[i] != batch[n];
    }
    forall i | 0 <= i <= n ensures batch[i] in r'.ok <==> Succeeded(i, answers) {
      assert i < n ==> batch[i] != batch[n];
      assert batch[n] !in batch[..n];
    }
  }

  /** What a round appends: in the order of its batch, the event of each delivery that reached the broker. */
  function Sent(c: Config, facts: map<int, EventData>, batch: seq<int>, answers: RoundAnswers): seq<Fields>
    requires |answers.deliveries| >= |batch| && forall id :: id in batch ==> id in facts
  {
    if batch == [] then []
    else
      var n := |batch| - 1;
      Sent(c, facts, batch[..n], answers)
      + if n < answers.cancelledAt && (answers.deliveries[n].Acknowledged? || answers.deliveries[n].appended) then
          [EventFields(c, facts, batch[n])]
        else []
  }

  lemma NoneFollowed(facts: map<int, EventData>, table: Table, stream: seq<Fields>, batch: seq<int>, answers: RoundAnswers)
    requires |batch| <= |answers.deliveries| && Fetchable(facts, table, batch)
    ensures Followed(table, Progress(Claimed(table, Members(batch)), stream, {}), batch, 0, answers)
  {
    forall i | 0 <= i < |batch| ensures Eligible(table, batch[i]) {
      assert batch[i] in batch;
    }
  }

  lemma AfterEventsNext(c: Config, facts: map<int, EventData>, start: Progress, batch: seq<int>, n: nat, answers: RoundAnswers)
    requires n < |batch| <= |answers.deliveries| && forall id :: id in batch ==> id in facts
    ensures AfterEvents(c, facts, start, batch[..n + 1], answers)
            == AfterOne(c, facts, AfterEvents(c, facts, start, batch[..n], answers), batch[n], n, answers)
  {
    assert batch[..n + 1][..n] == batch[..n];
  }

  lemma {:induction false} EventsFollowed(c: Config, facts: map<int, EventData>, table: Table, stream: seq<Fields>, batch: seq<int>, n: nat,
                                          answers: RoundAnswers)
    requires n <= |batch| <= |answers.deliveries| && Fetchable(facts, table, batch)
    ensures Followed(table, AfterEvents(c, facts, Progress(Claimed(table, Members(batch)), stream, {}), batch[..n], answers), batch, n, answers)
  {
    var start := Progress(Claimed(table, Members(batch)), stream, {});
    if n == 0 {
      NoneFollowed(facts, table, stream, batch, answers);
      assert batch[..0] == [];
    } else {
      EventsFollowed(c, facts, table, stream, batch, n - 1, answers);
      EventFollowed(c, facts, table, AfterEvents(c, facts, start, batch[..n - 1], answers), batch, n - 1, answers);
      AfterEventsNext(c, facts, start, batch, n - 1, answers);
    }
  }

  lemma {:induction false} EventsSent(c: Config, facts: map<int, EventData>, start: Progress, batch: seq<int>, answers: RoundAnswers)
    requires |batch| <= |answers.deliveries| && forall id :: id in batch ==> id in facts
    ensures AfterEvents(c, facts, start, batch, answers).stream == start.stream + Sent(c, facts, batch, answers)
  {
    if batch != [] {
      EventsSent(c, facts, start, batch[..|batch| - 1], answers);
    }
  }

  /** A row at the end of its round: published exactly if its delivery succeeded and the batch mark took effect. */
  predicate RowEnds(row: Row, row': Row, id: int, i: nat, answers: RoundAnswers)
    requires i < |answers.deliveries|
  {
    if !Succeeded(i, answers) then RowFollows(row, row', id, i, answers)
    else
      && row'.data == row.data && row'.attempts == row.attempts && row'.published == !answers.mark.NotMarked?
      && (answers.mark.NotMarked? ==> row'.claimed == (id !in answers.released))
  }

  /**
    What becomes of each event of a round. The delivered ones are published, unless the mark did not take
    effect, and are in the stream in order; every other row stays unpublished, with its failure counted,
    and can be fetched again as soon as its claim is dropped; rows outside the batch are left alone.
  */
  lemma RoundOutcome(c: Config, facts: map<int, EventData>, table: Table, stream: seq<Fields>, batch: seq<int>, answers: RoundAnswers)
    requires |batch| <= |answers.deliveries| && Fetchable(facts, table, batch)
    ensures var r := AfterEvents(c, facts, Progress(Claimed(table, Members(batch)), stream, {}), batch, answers);
            var table' := AfterMark(r, answers);
            && table'.Keys == table.Keys && r.stream == stream + Sent(c, facts, batch, answers)
            && (forall i :: 0 <= i < |batch| ==> batch[i] in table && RowEnds(table[batch[i]], table'[batch[i]], batch[i], i, answers))
            && (forall id :: id in table && id !in batch ==> table'[id] == table[id])
  {
    EventsFollowed(c, facts, table, stream, batch, |batch|, answers);
    EventsSent(c, facts, Progress(Claimed(table, Members(batch)), stream, {}), batch, answers);
    assert batch[..|batch|] == batch;
    var r := AfterEvents(c, facts, Progress(Claimed(table, Members(batch)), stream, {}), batch, answers);
    var table' := AfterMark(r, answers);
    forall i | 0 <= i < |batch| ensures batch[i] in table && RowEnds(table[batch[i]], table'[batch[i]], batch[i], i, answers) {
      assert RowFollows(table[batch[i]], r.table[batch[i]], batch[i], i, answers);
    }
  }
}
