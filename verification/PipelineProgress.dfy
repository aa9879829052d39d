/**
  Nothing gets stuck between outbox and inbox: delivery counts count deliveries, and from every state that
  publishers, consumers, failures and crashes can lead to, an event can still be published and applied.
*/
module PipelineProgress {
  import opened Wrappers
  import opened Identity
  import opened OutboxEnvelope
  import opened EventPipeline
  import PipelineCode

  // ---------- delivery counts ----------

  /** The action hands entry `k` to a consumer that is free. */
  predicate Delivers(w: World, a: Action, k: nat) {
    || (a.Read? && a.consumer !in w.held && w.broker.cursor == k < |w.broker.stream|)
    || (a.Reclaim? && a.consumer !in w.held && a.entry == k && k in w.broker.pending)
  }

  /** How often an entry was handed out in a run. */
  ghost function Deliveries(c: Config, start: World, actions: seq<Action>, k: nat): nat {
    if actions == [] then 0
    else
      var n := |actions| - 1;
      Deliveries(c, start, actions[..n], k) + if Delivers(Run(c, start, actions[..n]), actions[n], k) then 1 else 0
  }

  /** Pending counts are exact, held and isolated ones are of some earlier delivery, and what is beyond the cursor was never handed out. */
  ghost predicate Counted(c: Config, start: World, actions: seq<Action>) {
    var w := Run(c, start, actions);
    && (forall k :: k in w.broker.pending ==> w.broker.pending[k] == Deliveries(c, start, actions, k))
    && (forall k :: k >= w.broker.cursor ==> Deliveries(c, start, actions, k) == 0)
    && (forall s :: s in w.held ==> 1 <= w.held[s].count <= Deliveries(c, start, actions, w.held[s].entry))
    && (forall i :: 0 <= i < |w.broker.poison| ==> w.broker.poison[i].count <= Deliveries(c, start, actions, w.broker.poison[i].entry))
  }

  lemma CountedQuiet(c: Config, w: World, a: Action)
    requires !a.Read? && !a.Reclaim?
    ensures var b, b' := w.broker, Next(c, w, a).broker;
            && b'.cursor == b.cursor && (forall k :: k in b'.pending ==> k in b.pending && b'.pending[k] == b.pending[k])
            && (forall s :: s in Next(c, w, a).held ==>
                  s in w.held && Next(c, w, a).held[s].entry == w.held[s].entry && Next(c, w, a).held[s].count == w.held[s].count)
            && b.poison <= b'.poison
            && (forall i :: |b.poison| <= i < |b'.poison| ==> exists s :: s in w.held && b'.poison[i] == Poison(w.held[s].entry, w.held[s].count))
  {
    if !OfConsumer(a) {
      StreamExtended(c, w, a);
    } else if a.Work? && a.consumer in w.held && w.held[a.consumer].entry < |w.broker.stream| {
      WorkUntouched(c, w, a.consumer, a.verdict);
    }
  }

  lemma DeliveriesNext(c: Config, start: World, actions: seq<Action>)
    requires actions != []
    ensures var w, a := Run(c, start, actions[..|actions| - 1]), actions[|actions| - 1];
            forall k: nat :: Deliveries(c, start, actions, k)
                             == Deliveries(c, start, actions[..|actions| - 1], k) + if Delivers(w, a, k) then 1 else 0
  {
  }

  lemma CountedStill(c: Config, start: World, actions: seq<Action>)
    requires actions != [] && Counted(c, start, actions[..|actions| - 1])
    requires var a := actions[|actions| - 1]; !a.Read? && !a.Reclaim?
    ensures Counted(c, start, actions)
  {
    var n := |actions| - 1;
    var before, w, w' := actions[..n], Run(c, start, actions[..n]), Run(c, start, actions);
    CountedQuiet(c, w, actions[n]);
    DeliveriesNext(c, start, actions);
    forall i | 0 <= i < |w'.broker.poison| ensures w'.broker.poison[i].count <= Deliveries(c, start, actions, w'.broker.poison[i].entry) {
      if i < |w.broker.poison| {
        assert w.broker.poison[i] == w'.broker.poison[i];
      } else {
        var s :| s in w.held && w'.broker.poison[i] == Poison(w.held[s].entry, w.held[s].count);
        assert w.held[s].count <= Deliveries(c, start, before, w.held[s].entry);
      }
    }
  }

  lemma CountedRead(c: Config, start: World, actions: seq<Action>)
    requires actions != [] && actions[|actions| - 1].Read? && Counted(c, start, actions[..|actions| - 1])
    requires Grouped(Run(c, start, actions[..|actions| - 1]).broker)
    ensures Counted(c, start, actions)
  {
    var n := |actions| - 1;
    var before, w, w' := actions[..n], Run(c, start, actions[..n]), Run(c, start, actions);
    DeliveriesNext(c, start, actions);
    assert w'.broker.poison == w.broker.poison;
    assert Deliveries(c, start, before, w.broker.cursor) == 0;
  }

  lemma CountedReclaim(c: Config, start: World, actions: seq<Action>)
    requires actions != [] && actions[|actions| - 1].Reclaim? && Counted(c, start, actions[..|actions| - 1])
    requires Grouped(Run(c, start, actions[..|actions| - 1]).broker)
    ensures Counted(c, start, actions)
  {
    var n := |actions| - 1;
    var w, w' := Run(c, start, actions[..n]), Run(c, start, actions);
    DeliveriesNext(c, start, actions);
    assert w'.broker.poison == w.broker.poison;
  }

  lemma CountedStep(c: Config, start: World, actions: seq<Action>)
    requires actions != [] && Counted(c, start, actions[..|actions| - 1]) && Grouped(Run(c, start, actions[..|actions| - 1]).broker)
    ensures Counted(c, start, actions)
  {
    if actions[|actions| - 1].Read? {
      CountedRead(c, start, actions);
    } else if actions[|actions| - 1].Reclaim? {
      CountedReclaim(c, start, actions);
    } else {
      CountedStill(c, start, actions);
    }
  }

  lemma {:induction false} AlwaysCounted(c: Config, binding: Option<string>, actions: seq<Action>)
    ensures Counted(c, Start(binding), actions)
  {
    if actions != [] {
      var before := actions[..|actions| - 1];
      AlwaysCounted(c, binding, before);
      AlwaysInv(c, binding, before);
      CountedStep(c, Start(binding), actions);
    }
  }

  /**
    A consumer is told how often its entry has been handed out, this time included; and an entry is isolated
    only after it has really been handed out as often as is required.
  */
  lemma DeliveriesCounted(c: Config, binding: Option<string>, actions: seq<Action>, a: Action, k: nat)
    ensures var w := Run(c, Start(binding), actions);
            && (Delivers(w, a, k) ==>
                  && a.consumer in Next(c, w, a).held
                  && Next(c, w, a).held[a.consumer] == Held(k, Deliveries(c, Start(binding), actions, k) + 1, Received))
            && (forall i :: 0 <= i < |w.broker.poison| ==>
                  c.maxDeliveries <= w.broker.poison[i].count <= Deliveries(c, Start(binding), actions, w.broker.poison[i].entry))
  {
    AlwaysCounted(c, binding, actions);
    AlwaysInv(c, binding, actions);
  }

  // ---------- an event can always still be applied ----------

  lemma {:induction false} BindingKept(c: Config, binding: Option<string>, actions: seq<Action>)
    requires binding.None? || binding.value == c.group
    ensures PipelineCode.Ours(c, Run(c, Start(binding), actions).db)
  {
    if actions != [] {
      var n := |actions| - 1;
      BindingKept(c, binding, actions[..n]);
      BindingStep(c, Run(c, Start(binding), actions[..n]), actions[n]);
    }
  }

  lemma BindingStep(c: Config, w: World, a: Action)
    requires PipelineCode.Ours(c, w.db)
    ensures PipelineCode.Ours(c, Next(c, w, a).db)
  {
    if !OfConsumer(a) {
      StreamExtended(c, w, a);
    }
  }

  /** An unpublished row, claimed or not, can be published: its claim lapses, and it is fetched, delivered and marked. */
  function Publishing(p: string, id: int): seq<Action> {
    [ExpireClaim(id), Fetch(p, {id}), Deliver(p, id, Acknowledged), Mark(p, true, {})]
  }

  lemma FourSteps(c: Config, w: World, a: Action, b: Action, d: Action, e: Action)
    ensures Run(c, w, [a, b, d, e]) == Next(c, Next(c, Next(c, Next(c, w, a), b), d), e)
  {
    PipelineCode.ThreeSteps(c, w, a, b, d);
    PipelineCode.RunAppend(c, w, [a, b, d], e);
    assert [a, b, d] + [e] == [a, b, d, e];
  }

  lemma Published(c: Config, w: World, p: string, id: int)
    requires p !in w.rounds && id in w.facts && id in w.table && !w.table[id].published
    ensures var w' := Run(c, w, Publishing(p, id));
            && w'.broker == w.broker.(stream := w.broker.stream + [EventFields(c, w.facts, id)]) && w'.facts == w.facts && w'.db == w.db
            && w'.held == w.held && id in w'.table && w'.table[id].published
  {
    FourSteps(c, w, ExpireClaim(id), Fetch(p, {id}), Deliver(p, id, Acknowledged), Mark(p, true, {}));
    var w1 := Next(c, w, ExpireClaim(id));
    assert Eligible(w1.table, id);
    var w2 := Next(c, w1, Fetch(p, {id}));
    assert w2.rounds[p] == Round({id}, {}) && !w2.table[id].published;
    var w3 := Next(c, w2, Deliver(p, id, Acknowledged));
    assert id in w3.rounds[p].ok && !w3.table[id].published;
  }

  /** A free consumer can read on up to any entry, leaving the ones before it pending. */
  function Skipping(s: string, n: nat): seq<Action> {
    if n == 0 then [] else Skipping(s, n - 1) + [Read(s)] + [CrashConsumer(s)]
  }

  lemma SkippedOne(c: Config, w: World, s: string)
    requires s !in w.held && w.broker.cursor < |w.broker.stream|
    ensures var w' := Next(c, Next(c, w, Read(s)), CrashConsumer(s));
            && s !in w'.held && w'.broker.cursor == w.broker.cursor + 1 && w'.broker.stream == w.broker.stream && w'.db == w.db
  {
  }

  lemma {:induction false} Skipped(c: Config, w: World, s: string, n: nat)
    requires s !in w.held && w.broker.cursor + n <= |w.broker.stream|
    ensures var w' := Run(c, w, Skipping(s, n));
            && s !in w'.held && w'.broker.cursor == w.broker.cursor + n && w'.broker.stream == w.broker.stream && w'.db == w.db
  {
    if n > 0 {
      var before := Skipping(s, n - 1);
      var w1 := Run(c, w, before);
      Skipped(c, w, s, n - 1);
      SkippedOne(c, w1, s);
      PipelineCode.RunAppend(c, w, before, Read(s));
      PipelineCode.RunAppend(c, w, before + [Read(s)], CrashConsumer(s));
    }
  }

  lemma EventDecodes(c: Config, facts: map<int, EventData>, id: int)
    requires id in facts && Deliverable(c.text, NewEnvelope(id, facts[id]))
    ensures Decode(c.text, EventFields(c, facts, id)).Some? && Decode(c.text, EventFields(c, facts, id)).value.eventId == FormatInt(id)
  {
    EnvelopeRoundTrip(c.text, NewEnvelope(id, facts[id]));
  }

  /** Whoever works on the event's entry, and whose handler commits, records it if it was not recorded before. */
  lemma WorkedRecords(c: Config, w: World, s: string, id: int)
    requires s in w.held && w.held[s].stage.Received? && w.held[s].entry < |w.broker.stream| && PipelineCode.Ours(c, w.db)
    requires id in w.facts && w.broker.stream[w.held[s].entry] == EventFields(c, w.facts, id)
    requires Deliverable(c.text, NewEnvelope(id, w.facts[id]))
    ensures FormatInt(id) in Next(c, w, Work(s, Commits)).db.rows
  {
    EventDecodes(c, w.facts, id);
  }

  /** The consumer has just been handed this entry. */
  ghost predicate HandedTo(w: World, w': World, s: string, k: nat) {
    && s in w'.held && w'.held[s].entry == k && w'.held[s].stage.Received? && w'.broker.stream == w.broker.stream && w'.db == w.db
  }

  lemma Handing(c: Config, w: World, s: string, k: nat)
    requires s !in w.held && k < |w.broker.stream|
    ensures k in w.broker.pending ==> HandedTo(w, Next(c, w, Reclaim(s, k)), s, k)
    ensures k == w.broker.cursor ==> HandedTo(w, Next(c, w, Read(s)), s, k)
  {
  }

  /** The event's entry, unread or pending, can be handed to a free consumer. */
  lemma Handed(c: Config, w: World, s: string, k: nat) returns (more: seq<Action>)
    requires Grouped(w.broker) && s !in w.held && k < |w.broker.stream| && k !in w.broker.acked
    ensures HandedTo(w, Run(c, w, more), s, k)
  {
    if k < w.broker.cursor {
      more := [Reclaim(s, k)];
      Handing(c, w, s, k);
      PipelineCode.RunAppend(c, w, [], Reclaim(s, k));
      assert [] + more == more;
    } else {
      var skip := Skipping(s, k - w.broker.cursor);
      Skipped(c, w, s, k - w.broker.cursor);
      Handing(c, Run(c, w, skip), s, k);
      PipelineCode.RunAppend(c, w, skip, Read(s));
      more := skip + [Read(s)];
    }
  }

  ghost predicate RecordedAfter(c: Config, start: World, actions: seq<Action>, more: seq<Action>, id: int) {
    FormatInt(id) in Run(c, start, actions + more).db.rows
  }

  lemma FactsStay(c: Config, w: World, a: Action)
    ensures forall id :: id in w.facts ==> id in Next(c, w, a).facts && Next(c, w, a).facts[id] == w.facts[id]
  {
    if OfConsumer(a) { StreamUntouched(c, w, a); } else { StreamExtended(c, w, a); }
  }

  lemma {:induction false} FactsStayLong(c: Config, w: World, actions: seq<Action>)
    ensures forall id :: id in w.facts ==> id in Run(c, w, actions).facts && Run(c, w, actions).facts[id] == w.facts[id]
  {
    if actions != [] {
      var n := |actions| - 1;
      FactsStayLong(c, w, actions[..n]);
      FactsStay(c, Run(c, w, actions[..n]), actions[n]);
    }
  }

  /** An entry of the event that is not acknowledged yet can be applied. */
  lemma EntryApplied(c: Config, binding: Option<string>, actions: seq<Action>, id: int, k: nat, s: string) returns (more: seq<Action>)
    requires binding.None? || binding.value == c.group
    requires var w := Run(c, Start(binding), actions);
             && id in w.facts && Deliverable(c.text, NewEnvelope(id, w.facts[id])) && s !in w.held
             && k < |w.broker.stream| && w.broker.stream[k] == EventFields(c, w.facts, id) && k !in w.broker.acked
    ensures RecordedAfter(c, Start(binding), actions, more, id)
  {
    var w := Run(c, Start(binding), actions);
    AlwaysInv(c, binding, actions);
    var hand := Handed(c, w, s, k);
    var held := Run(c, w, hand);
    FactsStayLong(c, w, hand);
    PipelineCode.RunConcat(c, Start(binding), actions, hand);
    BindingKept(c, binding, actions);
    WorkedRecords(c, held, s, id);
    more := hand + [Work(s, Commits)];
    PipelineCode.RunAppend(c, Start(binding), actions + hand, Work(s, Commits));
    assert actions + more == actions + hand + [Work(s, Commits)];
  }

  /** An entry of the event was given up: acknowledged, never recorded, delivered often enough, and hopeless. */
  ghost predicate GivenUp(c: Config, binding: Option<string>, actions: seq<Action>, id: int, k: nat) {
    var w := Run(c, Start(binding), actions);
    && id in w.facts && k < |w.broker.stream| && w.broker.stream[k] == EventFields(c, w.facts, id) && k in w.broker.acked
    && IsolatedAfter(w.broker, k, c.maxDeliveries) && RefusedForGood(c, Start(binding), actions, k)
  }

  /** An entry of the event that is acknowledged was recorded or given up. */
  lemma AcknowledgedEntry(c: Config, binding: Option<string>, actions: seq<Action>, id: int, k: nat)
    requires var w := Run(c, Start(binding), actions);
             && id in w.facts && Deliverable(c.text, NewEnvelope(id, w.facts[id]))
             && k < |w.broker.stream| && w.broker.stream[k] == EventFields(c, w.facts, id) && k in w.broker.acked
    ensures FormatInt(id) in Run(c, Start(binding), actions).db.rows || GivenUp(c, binding, actions, id, k)
  {
    var w := Run(c, Start(binding), actions);
    EventDecodes(c, w.facts, id);
    NoEventLost(c, binding, actions);
    if !InInbox(c, w.broker.stream, w.db, k) {
      assert Hopeless(c, Start(binding), actions, k);
    }
  }

  /** The publishing run leaves a fresh entry of the event, and the consumer as free as it was. */
  lemma FreshEntry(c: Config, binding: Option<string>, actions: seq<Action>, id: int, p: string)
    requires var w := Run(c, Start(binding), actions);
             && p !in w.rounds && id in w.facts && id in w.table && !w.table[id].published
    ensures var w, w' := Run(c, Start(binding), actions), Run(c, Start(binding), actions + Publishing(p, id));
            var k := |w.broker.stream|;
            && id in w'.facts && w'.facts[id] == w.facts[id] && w'.held == w.held && k < |w'.broker.stream|
            && w'.broker.stream[k] == EventFields(c, w'.facts, id) && k !in w'.broker.acked
  {
    AlwaysInv(c, binding, actions);
    Published(c, Run(c, Start(binding), actions), p, id);
    PipelineCode.RunConcat(c, Start(binding), actions, Publishing(p, id));
  }

  /** An event whose row is not published yet can be published, and then applied. */
  lemma UnpublishedApplied(c: Config, binding: Option<string>, actions: seq<Action>, id: int, p: string, s: string) returns (more: seq<Action>)
    requires binding.None? || binding.value == c.group
    requires var w := Run(c, Start(binding), actions);
             && id in w.facts && Deliverable(c.text, NewEnvelope(id, w.facts[id])) && p !in w.rounds && s !in w.held
             && id in w.table && !w.table[id].published
    ensures RecordedAfter(c, Start(binding), actions, more, id)
  {
    var k, publish := |Run(c, Start(binding), actions).broker.stream|, Publishing(p, id);
    FreshEntry(c, binding, actions, id, p);
    var rest := EntryApplied(c, binding, actions + publish, id, k, s);
    more := publish + rest;
    assert actions + more == actions + publish + rest;
  }

  /**
    No event gets stuck. Whatever publishers, consumers, failures and crashes have done so far, an event that
    can be read is already recorded, or can still be published and applied by a free publisher and a free
    consumer, or was isolated after its handler had refused it for good.
  */
  lemma NeverStuck(c: Config, binding: Option<string>, actions: seq<Action>, id: int, p: string, s: string) returns (more: seq<Action>, k: nat)
    requires binding.None? || binding.value == c.group
    requires var w := Run(c, Start(binding), actions);
             && id in w.facts && Deliverable(c.text, NewEnvelope(id, w.facts[id])) && p !in w.rounds && s !in w.held
    ensures RecordedAfter(c, Start(binding), actions, more, id) || GivenUp(c, binding, actions, id, k)
  {
    var w := Run(c, Start(binding), actions);
    AlwaysInv(c, binding, actions);
    more, k := [], 0;
    assert actions + [] == actions;
    if InStream(c, w.facts, w.broker.stream, id) {
      k :| 0 <= k < |w.broker.stream| && w.broker.stream[k] == EventFields(c, w.facts, id);
      if k in w.broker.acked {
        AcknowledgedEntry(c, binding, actions, id, k);
      } else {
        more := EntryApplied(c, binding, actions, id, k, s);
      }
    } else {
      more := UnpublishedApplied(c, binding, actions, id, p, s);
    }
  }
}
