/**
  Where a claim may point (internal/run/support_sources.go): the sources a Run's own accepted
  steps returned, each under the one short alias a model may use for it. JSON arrives parsed:
  `located` is the set of registered field pointers that resolve in an object.
*/
module SupportSources {
  import opened Wrappers
  import opened Identity
  import opened BusinessModel

  datatype GraphError = StepConflict | ModelProtocol | InvalidArgument | ProfileUnavailable | InternalError | TooLarge

  datatype StepKind =
    | ReadTicket | GetOrder | GetDelivery | SearchPolicy | ReadPolicyBundle | ModelProposal | ModelDecision
    | ProtocolCorrection | SubmitProposal | ApplyTicketResolution | OtherKind(text: string)

  datatype Source = Source(ref: string, pointer: string)

  datatype Hit = Hit(indexId: string, chunkId: string, policyVersion: string, evidenceRef: string, source: string, text: string,
                     distance: Option<string>)

  datatype ToolArguments = Query(text: string) | OrderId(id: Option<string>)

  /** What a step's protected content parses to. */
  datatype Content =
    | NullContent
    | TicketContent(ticket: Ticket)
    | Evidence(snapshotId: string, ref: string, kind: string, missing: Option<bool>, missingReason: string, hasTicket: bool,
               order: Option<Order>, delivery: Option<Delivery>, located: set<string>)
    | Search(snapshotId: string, matches: seq<Hit>)
    | ToolDecision(name: StepKind, arguments: ToolArguments)
    | InvestigationComplete(draft: string)
    | Supplement(topic: string, aliases: seq<string>)
    | OtherContent(text: string)

  datatype ToolResult = ToolResult(refs: seq<string>, content: Content)

  datatype Snapshot = Snapshot(id: string, tenantId: string, ticketId: string, indexId: string, indexProfileHash: string,
                               ticket: Ticket, located: set<string>, vector: VersionVector)

  const TICKET_POINTERS := ["/order_id", "/status", "/subject", "/description", "/observed_at", "/policy_version"]
  const ORDER_POINTERS := ["/missing", "/missing_reason", "/order/order_id", "/order/delivery_id", "/order/status",
                           "/order/ordered_at", "/order/promised_delivery_at"]
  const DELIVERY_POINTERS := ["/missing", "/missing_reason", "/delivery/delivery_id", "/delivery/order_id", "/delivery/status",
                              "/delivery/events"]

  predicate IsTool(kind: StepKind) {
    kind.GetOrder? || kind.GetDelivery? || kind.SearchPolicy? || kind.ReadPolicyBundle?
  }

  function EvidenceRef(snapshot: Snapshot, kind: string): string {
    "business-evidence:" + snapshot.id + ":" + kind
  }

  function PolicyRef(snapshot: Snapshot, chunk: string): string {
    "business-policy:" + snapshot.indexId + ":" + chunk
  }

  /** The snapshot's own copies agree with each other. */
  predicate Bound(s: Snapshot) {
    && ValidUUID(s.id) && ValidUUID(s.indexId)
    && s.ticket.tenantId == s.tenantId && s.ticket.ticketId == s.ticketId
    && s.vector.schemaVersion == 1 && s.vector.ticketId == s.ticket.ticketId && s.vector.ticketRevision == s.ticket.revision
    && s.vector.policy.version == s.ticket.policyVersion && s.vector.index.id == s.indexId
    && s.vector.index.profileHash == s.indexProfileHash && s.vector.order.id == s.ticket.orderId
  }

  // ---------- is a returned object the one the snapshot names ----------

  function SnapshotOf(c: Content): string {
    if c.Evidence? || c.Search? then c.snapshotId else ""
  }

  function MatchesOf(c: Content): seq<Hit> {
    if c.Search? then c.matches else []
  }

  function EvidenceKind(kind: StepKind): string {
    if kind.GetOrder? then "order" else if kind.GetDelivery? then "delivery" else ""
  }

  function BundleAliases(): (aliases: seq<string>)
    ensures |aliases| == 20
  {
    ["P01.1", "P01.2", "P02.1", "P02.2", "P03.1", "P03.2", "P04.1", "P04.2", "P05.1", "P05.2",
     "P06.1", "P06.2", "P07.1", "P07.2", "P08.1", "P08.2", "P09.1", "P09.2", "P10.1", "P10.2"]
  }

  predicate HitFor(s: Snapshot, hit: Hit, chunk: string, ref: string) {
    hit.indexId == s.indexId && hit.chunkId == chunk && hit.evidenceRef == PolicyRef(s, chunk) && ref == PolicyRef(s, chunk)
  }

  predicate ValidBundle(s: Snapshot, result: ToolResult) {
    && Bound(s) && result.content.Search? && result.content.snapshotId == s.id
    && var hits, aliases := result.content.matches, BundleAliases();
    && |hits| == |aliases| && |result.refs| == |aliases|
    && forall i :: 0 <= i < |hits| ==>
         && HitFor(s, hits[i], aliases[i], result.refs[i]) && hits[i].policyVersion == s.ticket.policyVersion
         && hits[i].source != "" && hits[i].text != "" && |hits[i].text| <= 768
  }

  predicate ToolEvidence(s: Snapshot, kind: StepKind, result: ToolResult) {
    if SnapshotOf(result.content) != s.id then false
    else if kind == ReadPolicyBundle then ValidBundle(s, result)
    else if kind != SearchPolicy then
      && result.content.Evidence? && result.content.kind == EvidenceKind(kind)
      && result.content.ref == EvidenceRef(s, EvidenceKind(kind)) && result.refs == [EvidenceRef(s, EvidenceKind(kind))]
    else
      var hits := MatchesOf(result.content);
      && |hits| <= 3 && |hits| == |result.refs|
      && forall i :: 0 <= i < |hits| ==> HitFor(s, hits[i], hits[i].chunkId, result.refs[i]) && ValidIdentifier(hits[i].chunkId)
  }

  predicate PolicyAlias(v: string) {
    |v| == 5 && v[0] == 'P' && v[3] == '.' && '1' <= v[4] <= '2' && ((v[1] == '0' && '1' <= v[2] <= '9') || v[1..3] == "10")
  }

  predicate DistinctEvents(events: seq<Event>) {
    forall i, j :: 0 <= i < j < |events| ==> events[i].eventId != events[j].eventId
  }

  predicate OrderMatches(s: Snapshot, e: Content)
    requires e.Evidence?
  {
    && e.order.Some? && s.vector.order.exists' && s.vector.order.revision.Some? && s.vector.order.id.Some?
    && e.order.value.tenantId == s.tenantId && Some(e.order.value.orderId) == s.vector.order.id
    && Some(e.order.value.revision) == s.vector.order.revision && e.order.value.deliveryId == s.vector.delivery.id
  }

  predicate DeliveryMatches(s: Snapshot, e: Content)
    requires e.Evidence?
  {
    && e.delivery.Some? && s.vector.delivery.exists' && s.vector.delivery.revision.Some? && s.vector.delivery.id.Some?
    && e.delivery.value.tenantId == s.tenantId && Some(e.delivery.value.deliveryId) == s.vector.delivery.id
    && Some(e.delivery.value.orderId) == s.ticket.orderId
    && Some(e.delivery.value.aggregateRevision) == s.vector.delivery.revision && e.delivery.value.events.Some?
  }

  predicate ValidEvents(e: Content)
    requires e.Evidence?
  {
    e.delivery.Some? && e.delivery.value.events.Some? ==>
      && DistinctEvents(e.delivery.value.events.value)
      && forall i :: 0 <= i < |e.delivery.value.events.value| ==> ValidIdentifier(e.delivery.value.events.value[i].eventId)
  }

  /** A missing fact must be missing in the snapshot too, for the stated reason. */
  predicate MissingAgrees(relation: Relation, e: Content)
    requires e.Evidence?
  {
    if e.missing == Some(true) then
      && !relation.exists' && e.order.None? && e.delivery.None?
      && e.missingReason == if relation.id.None? then "not_associated" else "record_not_found"
    else e.missingReason == ""
  }

  predicate SearchMatches(s: Snapshot, hits: seq<Hit>) {
    && (forall i :: 0 <= i < |hits| ==>
          && PolicyAlias(hits[i].chunkId) && hits[i].policyVersion == s.ticket.policyVersion && hits[i].text != "" && hits[i].source != "")
    && (forall i, j :: 0 <= i < j < |hits| ==> hits[i].chunkId != hits[j].chunkId)
  }

  predicate SameObject(s: Snapshot, kind: StepKind, e: Content) {
    && e.Evidence? && e.missing.Some? && !e.hasTicket
    && (if kind == GetOrder then
          e.delivery.None? && (!e.missing.value ==> OrderMatches(s, e)) && MissingAgrees(s.vector.order, e)
        else
          && kind == GetDelivery && e.order.None? && (!e.missing.value ==> DeliveryMatches(s, e)) && ValidEvents(e)
          && MissingAgrees(s.vector.delivery, e))
  }

  /** Whether the object is missing; an error when it is not the object the snapshot names. */
  function SupportTool(s: Snapshot, kind: StepKind, result: ToolResult): Result<bool, GraphError> {
    if !Bound(s) || !ToolEvidence(s, kind, result) then Failure(StepConflict)
    else if kind == ReadPolicyBundle then Success(false)
    else if kind == SearchPolicy then
      if result.content.Search? && SearchMatches(s, result.content.matches) then Success(false) else Failure(StepConflict)
    else if SameObject(s, kind, result.content) then Success(result.content.missing.value)
    else Failure(StepConflict)
  }

  // ---------- the aliases and events a history offers ----------

  datatype Sources = Sources(aliases: map<string, Source>, events: map<string, Source>, policies: map<string, Hit>, seen: set<StepKind>)

  datatype StepRecord = StepRecord(kind: StepKind, result: ToolResult)

  function AddPointers(aliases: map<string, Source>, prefix: string, ref: string, pointers: seq<string>, located: set<string>)
    : map<string, Source>
  {
    if pointers == [] then aliases
    else
      var last := pointers[|pointers| - 1];
      var rest := AddPointers(aliases, prefix, ref, pointers[..|pointers| - 1], located);
      if last in located then rest[prefix + "#" + last := Source(ref, last)] else rest
  }

  function EventPointer(i: nat): string {
    "/delivery/events/" + Decimal(i)
  }

  function AddEvents(events: map<string, Source>, ref: string, list: seq<Event>): map<string, Source> {
    if list == [] then events
    else AddEvents(events, ref, list[..|list| - 1])[list[|list| - 1].eventId := Source(ref, EventPointer(|list| - 1))]
  }

  predicate SameHit(a: Hit, b: Hit) {
    a.(distance := None) == b.(distance := None)
  }

  function AddHits(s: Sources, hits: seq<Hit>): Result<Sources, GraphError> {
    if hits == [] then Success(s)
    else
      var last := hits[|hits| - 1];
      var rest :- AddHits(s, hits[..|hits| - 1]);
      if last.chunkId in rest.policies && !SameHit(rest.policies[last.chunkId], last) then Failure(StepConflict)
      else Success(rest.(policies := rest.policies[last.chunkId := last],
                         aliases := rest.aliases[last.chunkId := Source(last.evidenceRef, "/text")]))
  }

  function StepSources(snapshot: Snapshot, s: Sources, step: StepRecord, repeatedSearch: bool): Result<Sources, GraphError> {
    if !IsTool(step.kind) then Success(s)
    else if step.kind in s.seen && (!repeatedSearch || step.kind != SearchPolicy) then Failure(StepConflict)
    else
      var _ :- SupportTool(snapshot, step.kind, step.result);
      var content, marked := step.result.content, s.(seen := s.seen + {step.kind});
      if step.kind == GetOrder then
        Success(marked.(aliases := AddPointers(s.aliases, "E1", step.result.refs[0], ORDER_POINTERS, content.located)))
      else if step.kind == GetDelivery then
        var ref := step.result.refs[0];
        var list := if content.delivery.Some? && content.delivery.value.events.Some? then content.delivery.value.events.value else [];
        Success(marked.(aliases := AddPointers(s.aliases, "E2", ref, DELIVERY_POINTERS, content.located),
                        events := AddEvents(s.events, ref, list)))
      else AddHits(marked, content.matches)
  }

  function OpenSources(s: Snapshot): Sources {
    Sources(AddPointers(map[], "T", EvidenceRef(s, "ticket"), TICKET_POINTERS, s.located), map[], map[], {})
  }

  function SourcesAfter(s: Snapshot, prior: seq<StepRecord>, repeatedSearch: bool): Result<Sources, GraphError> {
    if !Bound(s) then Failure(StepConflict)
    else if prior == [] then Success(OpenSources(s))
    else
      var before :- SourcesAfter(s, prior[..|prior| - 1], repeatedSearch);
      StepSources(s, before, prior[|prior| - 1], repeatedSearch)
  }

  // ---------- the loops ----------

  method AddSupportPointers(aliases: map<string, Source>, prefix: string, ref: string, pointers: seq<string>, located: set<string>)
    returns (out: map<string, Source>)
    ensures out == AddPointers(aliases, prefix, ref, pointers, located)
  {
    out := aliases;
    for i := 0 to |pointers|
      invariant out == AddPointers(aliases, prefix, ref, pointers[..i], located)
    {
      assert pointers[..i + 1][..i] == pointers[..i];
      if pointers[i] in located {
        out := out[prefix + "#" + pointers[i] := Source(ref, pointers[i])];
      }
    }
    assert pointers[..|pointers|] == pointers;
  }

  method AddDeliveryEvents(events: map<string, Source>, ref: string, list: seq<Event>) returns (out: map<string, Source>)
    ensures out == AddEvents(events, ref, list)
  {
    out := events;
    for i := 0 to |list|
      invariant out == AddEvents(events, ref, list[..i])
    {
      assert list[..i + 1][..i] == list[..i];
      out := out[list[i].eventId := Source(ref, EventPointer(i))];
    }
    assert list[..|list|] == list;
  }

  lemma {:induction false} HitsFailEarly(s: Sources, hits: seq<Hit>, i: nat)
    requires i <= |hits| && AddHits(s, hits[..i]).Failure?
    ensures AddHits(s, hits) == AddHits(s, hits[..i])
  {
    if i < |hits| {
      assert hits[..|hits| - 1][..i] == hits[..i];
      HitsFailEarly(s, hits[..|hits| - 1], i);
    } else {
      assert hits[..i] == hits;
    }
  }

  method AddPolicyHits(s: Sources, hits: seq<Hit>) returns (result: Result<Sources, GraphError>)
    ensures result == AddHits(s, hits)
  {
    var out := s;
    for i := 0 to |hits|
      invariant AddHits(s, hits[..i]) == Success(out)
    {
      var hit := hits[i];
      assert hits[..i + 1][..i] == hits[..i];
      if hit.chunkId in out.policies {
        var previous := out.policies[hit.chunkId];
        previous := previous.(distance := hit.distance);
        if previous != hit {
          HitsFailEarly(s, hits, i + 1);
          return Failure(StepConflict);
        }
      }
      out := out.(policies := out.policies[hit.chunkId := hit]);
      out := out.(aliases := out.aliases[hit.chunkId := Source(hit.evidenceRef, "/text")]);
    }
    assert hits[..|hits|] == hits;
    return Success(out);
  }

  lemma {:induction false} SourcesFailEarly(s: Snapshot, prior: seq<StepRecord>, repeatedSearch: bool, i: nat)
    requires i <= |prior| && SourcesAfter(s, prior[..i], repeatedSearch).Failure?
    ensures SourcesAfter(s, prior, repeatedSearch) == SourcesAfter(s, prior[..i], repeatedSearch)
  {
    if i < |prior| {
      assert prior[..|prior| - 1][..i] == prior[..i];
      SourcesFailEarly(s, prior[..|prior| - 1], repeatedSearch, i);
    } else {
      assert prior[..i] == prior;
    }
  }

  method AddStep(snapshot: Snapshot, s: Sources, step: StepRecord, repeatedSearch: bool) returns (result: Result<Sources, GraphError>)
    ensures result == StepSources(snapshot, s, step, repeatedSearch)
  {
    if !IsTool(step.kind) {
      return Success(s);
    }
    if step.kind in s.seen && (!repeatedSearch || step.kind != SearchPolicy) {
      return Failure(StepConflict);
    }
    var checked := SupportTool(snapshot, step.kind, step.result);
    if checked.Failure? {
      return Failure(checked.error);
    }
    var out := s.(seen := s.seen + {step.kind});
    if step.kind == GetOrder {
      var aliases := AddSupportPointers(s.aliases, "E1", step.result.refs[0], ORDER_POINTERS, step.result.content.located);
      return Success(out.(aliases := aliases));
    }
    if step.kind == GetDelivery {
      var ref := step.result.refs[0];
      var aliases := AddSupportPointers(s.aliases, "E2", ref, DELIVERY_POINTERS, step.result.content.located);
      var delivery := step.result.content.delivery;
      var list := if delivery.Some? && delivery.value.events.Some? then delivery.value.events.value else [];
      var events := AddDeliveryEvents(s.events, ref, list);
      return Success(out.(aliases := aliases, events := events));
    }
    result := AddPolicyHits(out, step.result.content.matches);
  }

  method BuildSupportSources(snapshot: Snapshot, prior: seq<StepRecord>, repeatedSearch: bool) returns (result: Result<Sources, GraphError>)
    ensures result == SourcesAfter(snapshot, prior, repeatedSearch)
  {
    if !Bound(snapshot) {
      return Failure(StepConflict);
    }
    var aliases := AddSupportPointers(map[], "T", EvidenceRef(snapshot, "ticket"), TICKET_POINTERS, snapshot.located);
    var sources := Sources(aliases, map[], map[], {});
    for i := 0 to |prior|
      invariant SourcesAfter(snapshot, prior[..i], repeatedSearch) == Success(sources)
    {
      assert prior[..i + 1][..i] == prior[..i];
      var step := AddStep(snapshot, sources, prior[i], repeatedSearch);
      if step.Failure? {
        SourcesFailEarly(snapshot, prior, repeatedSearch, i + 1);
        return step;
      }
      sources := step.value;
    }
    assert prior[..|prior|] == prior;
    return Success(sources);
  }

  // ---------- every alias has one source, every source one alias ----------

  datatype Origin = FromTicket | FromOrder | FromDelivery {
    function Prefix(): string {
      match this case FromTicket => "T" case FromOrder => "E1" case FromDelivery => "E2"
    }

    function Kind(): string {
      match this case FromTicket => "ticket" case FromOrder => "order" case FromDelivery => "delivery"
    }

    function Pointers(): seq<string> {
      match this case FromTicket => TICKET_POINTERS case FromOrder => ORDER_POINTERS case FromDelivery => DELIVERY_POINTERS
    }
  }

  ghost predicate PointerAlias(s: Snapshot, alias: string, source: Source, o: Origin) {
    && source.ref == EvidenceRef(s, o.Kind()) && source.pointer in o.Pointers()
    && alias == o.Prefix() + "#" + source.pointer
  }

  ghost predicate KnownAlias(s: Snapshot, alias: string, source: Source) {
    || (exists o :: PointerAlias(s, alias, source, o))
    || (PolicyAlias(alias) && source == Source(PolicyRef(s, alias), "/text"))
  }

  ghost predicate EventSource(s: Snapshot, source: Source) {
    source.ref == EvidenceRef(s, "delivery") && exists i: nat :: source.pointer == EventPointer(i)
  }

  ghost predicate AllKnown(s: Snapshot, aliases: map<string, Source>) {
    forall a :: a in aliases ==> KnownAlias(s, a, aliases[a])
  }

  ghost predicate AllEvents(s: Snapshot, events: map<string, Source>) {
    forall e :: e in events ==> EventSource(s, events[e])
  }

  ghost predicate WellBuilt(s: Snapshot, src: Sources) {
    AllKnown(s, src.aliases) && AllEvents(s, src.events)
  }

  lemma {:induction false} PointersKnown(s: Snapshot, aliases: map<string, Source>, o: Origin, pointers: seq<string>, located: set<string>)
    requires AllKnown(s, aliases) && forall p :: p in pointers ==> p in o.Pointers()
    ensures AllKnown(s, AddPointers(aliases, o.Prefix(), EvidenceRef(s, o.Kind()), pointers, located))
  {
    if pointers != [] {
      var n := |pointers| - 1;
      var last, ref := pointers[n], EvidenceRef(s, o.Kind());
      assert last in pointers;
      PointersKnown(s, aliases, o, pointers[..n], located);
      assert PointerAlias(s, o.Prefix() + "#" + last, Source(ref, last), o);
    }
  }

  lemma {:induction false} EventsKnown(s: Snapshot, events: map<string, Source>, list: seq<Event>)
    requires AllEvents(s, events)
    ensures AllEvents(s, AddEvents(events, EvidenceRef(s, "delivery"), list))
  {
    if list != [] {
      var n: nat := |list| - 1;
      EventsKnown(s, events, list[..n]);
      assert EventSource(s, Source(EvidenceRef(s, "delivery"), EventPointer(n)));
    }
  }

  lemma {:induction false} HitsKnown(s: Snapshot, src: Sources, hits: seq<Hit>)
    requires WellBuilt(s, src) && AddHits(src, hits).Success?
    requires forall h :: h in hits ==> PolicyAlias(h.chunkId) && h.evidenceRef == PolicyRef(s, h.chunkId)
    ensures WellBuilt(s, AddHits(src, hits).value)
  {
    if hits != [] {
      HitsKnown(s, src, hits[..|hits| - 1]);
      assert hits[|hits| - 1] in hits;
    }
  }

  lemma BundleAliasesAreAliases()
    ensures forall i :: 0 <= i < 20 ==> PolicyAlias(BundleAliases()[i])
  {
  }

  lemma CheckedHits(s: Snapshot, kind: StepKind, result: ToolResult)
    requires kind == SearchPolicy || kind == ReadPolicyBundle
    requires SupportTool(s, kind, result).Success?
    ensures result.content.Search?
    ensures forall h :: h in result.content.matches ==> PolicyAlias(h.chunkId) && h.evidenceRef == PolicyRef(s, h.chunkId)
    ensures forall h :: h in result.content.matches ==> h.evidenceRef in result.refs
  {
    BundleAliasesAreAliases();
    var hits := result.content.matches;
    if kind == ReadPolicyBundle {
      assert ValidBundle(s, result);
      forall i | 0 <= i < |hits| ensures PolicyAlias(hits[i].chunkId) && hits[i].evidenceRef == PolicyRef(s, hits[i].chunkId)
        && hits[i].evidenceRef in result.refs
      {
        assert HitFor(s, hits[i], BundleAliases()[i], result.refs[i]);
      }
    } else {
      forall i | 0 <= i < |hits| ensures PolicyAlias(hits[i].chunkId) && hits[i].evidenceRef == PolicyRef(s, hits[i].chunkId)
        && hits[i].evidenceRef in result.refs
      {
        assert HitFor(s, hits[i], hits[i].chunkId, result.refs[i]);
      }
    }
  }

  lemma StepWellBuilt(s: Snapshot, src: Sources, step: StepRecord, repeatedSearch: bool)
    requires WellBuilt(s, src) && StepSources(s, src, step, repeatedSearch).Success?
    ensures WellBuilt(s, StepSources(s, src, step, repeatedSearch).value)
  {
    if IsTool(step.kind) {
      var content := step.result.content;
      if step.kind == GetOrder {
        assert step.result.refs[0] == EvidenceRef(s, FromOrder.Kind());
        PointersKnown(s, src.aliases, FromOrder, ORDER_POINTERS, content.located);
      } else if step.kind == GetDelivery {
        assert step.result.refs[0] == EvidenceRef(s, FromDelivery.Kind());
        PointersKnown(s, src.aliases, FromDelivery, DELIVERY_POINTERS, content.located);
        var list := if content.delivery.Some? && content.delivery.value.events.Some? then content.delivery.value.events.value else [];
        EventsKnown(s, src.events, list);
      } else {
        CheckedHits(s, step.kind, step.result);
        HitsKnown(s, src.(seen := src.seen + {step.kind}), content.matches);
      }
    }
  }

  lemma {:induction false} SourcesWellBuilt(s: Snapshot, prior: seq<StepRecord>, repeatedSearch: bool)
    requires SourcesAfter(s, prior, repeatedSearch).Success?
    ensures WellBuilt(s, SourcesAfter(s, prior, repeatedSearch).value)
  {
    if prior == [] {
      PointersKnown(s, map[], FromTicket, TICKET_POINTERS, s.located);
    } else {
      var n := |prior| - 1;
      SourcesWellBuilt(s, prior[..n], repeatedSearch);
      StepWellBuilt(s, SourcesAfter(s, prior[..n], repeatedSearch).value, prior[n], repeatedSearch);
    }
  }

  lemma EvidenceRefInjective(s: Snapshot, a: Origin, b: Origin)
    requires EvidenceRef(s, a.Kind()) == EvidenceRef(s, b.Kind())
    ensures a == b
  {
    assert |EvidenceRef(s, a.Kind())| == 18 + |s.id| + 1 + |a.Kind()|;
    assert |EvidenceRef(s, b.Kind())| == 18 + |s.id| + 1 + |b.Kind()|;
  }

  lemma PolicyRefInjective(s: Snapshot, a: string, b: string)
    requires PolicyRef(s, a) == PolicyRef(s, b)
    ensures a == b
  {
    var n := |"business-policy:" + s.indexId + ":"|;
    assert PolicyRef(s, a)[n..] == a && PolicyRef(s, b)[n..] == b;
  }

  lemma PolicyIsNotEvidence(s: Snapshot, chunk: string, kind: string)
    ensures PolicyRef(s, chunk) != EvidenceRef(s, kind)
  {
    assert PolicyRef(s, chunk)[9] == 'p' && EvidenceRef(s, kind)[9] == 'e';
  }

  /** No two aliases share a source, so reversing the alias table loses nothing. */
  lemma AliasesInjective(s: Snapshot, a: string, b: string, source: Source)
    requires KnownAlias(s, a, source) && KnownAlias(s, b, source)
    ensures a == b
  {
    if o :| PointerAlias(s, a, source, o) {
      if o' :| PointerAlias(s, b, source, o') {
        EvidenceRefInjective(s, o, o');
      } else {
        PolicyIsNotEvidence(s, b, o.Kind());
      }
    } else if o' :| PointerAlias(s, b, source, o') {
      PolicyIsNotEvidence(s, a, o'.Kind());
    } else {
      PolicyRefInjective(s, a, b);
    }
  }

  lemma EventPointerIsNotAField(i: nat)
    ensures EventPointer(i) !in DELIVERY_POINTERS
  {
    DecimalRoundTrip(i);
    var p := EventPointer(i);
    assert |p| >= 18 && p[10] == 'e';
    assert "/delivery/delivery_id"[10] == 'd' && "/delivery/order_id"[10] == 'o';
  }

  /** An event's own source is never the source of an alias. */
  lemma EventsAreNotAliased(s: Snapshot, alias: string, source: Source)
    requires KnownAlias(s, alias, source)
    ensures !EventSource(s, source)
  {
    if EventSource(s, source) {
      var i: nat :| source.pointer == EventPointer(i);
      EventPointerIsNotAField(i);
      if o :| PointerAlias(s, alias, source, o) {
        EvidenceRefInjective(s, o, FromDelivery);
      } else {
        PolicyIsNotEvidence(s, alias, "delivery");
      }
    }
  }

  // ---------- every source was returned in this history ----------

  /** The ticket's reference and whatever the history's tool steps returned. */
  ghost predicate Returned(s: Snapshot, prior: seq<StepRecord>, ref: string) {
    || ref == EvidenceRef(s, "ticket")
    || exists i :: 0 <= i < |prior| && IsTool(prior[i].kind) && ref in prior[i].result.refs
  }

  ghost predicate AllReturned(s: Snapshot, prior: seq<StepRecord>, src: Sources) {
    && (forall a :: a in src.aliases ==> Returned(s, prior, src.aliases[a].ref))
    && (forall e :: e in src.events ==> Returned(s, prior, src.events[e].ref))
  }

  lemma {:induction false} PointerRefs(aliases: map<string, Source>, prefix: string, ref: string, pointers: seq<string>, located: set<string>)
    ensures var out := AddPointers(aliases, prefix, ref, pointers, located);
            forall a :: a in out ==> out[a].ref == ref || (a in aliases && out[a] == aliases[a])
  {
    if pointers != [] {
      PointerRefs(aliases, prefix, ref, pointers[..|pointers| - 1], located);
    }
  }

  lemma {:induction false} EventRefs(events: map<string, Source>, ref: string, list: seq<Event>)
    ensures var out := AddEvents(events, ref, list);
            forall e :: e in out ==> out[e].ref == ref || (e in events && out[e] == events[e])
  {
    if list != [] {
      EventRefs(events, ref, list[..|list| - 1]);
    }
  }

  lemma {:induction false} HitRefs(src: Sources, hits: seq<Hit>, refs: seq<string>)
    requires AddHits(src, hits).Success? && forall h :: h in hits ==> h.evidenceRef in refs
    ensures var out := AddHits(src, hits).value;
            && out.events == src.events
            && forall a :: a in out.aliases ==> out.aliases[a].ref in refs || (a in src.aliases && out.aliases[a] == src.aliases[a])
  {
    if hits != [] {
      HitRefs(src, hits[..|hits| - 1], refs);
      assert hits[|hits| - 1] in hits;
    }
  }

  lemma ReturnedGrows(s: Snapshot, prior: seq<StepRecord>, ref: string)
    requires prior != [] && Returned(s, prior[..|prior| - 1], ref)
    ensures Returned(s, prior, ref)
  {
    if ref != EvidenceRef(s, "ticket") {
      var i :| 0 <= i < |prior| - 1 && IsTool(prior[..|prior| - 1][i].kind) && ref in prior[..|prior| - 1][i].result.refs;
      assert prior[i] == prior[..|prior| - 1][i];
    }
  }

  lemma {:induction false} SourcesReturned(s: Snapshot, prior: seq<StepRecord>, repeatedSearch: bool)
    requires SourcesAfter(s, prior, repeatedSearch).Success?
    ensures AllReturned(s, prior, SourcesAfter(s, prior, repeatedSearch).value)
  {
    if prior == [] {
      PointerRefs(map[], "T", EvidenceRef(s, "ticket"), TICKET_POINTERS, s.located);
    } else {
      var n := |prior| - 1;
      SourcesReturned(s, prior[..n], repeatedSearch);
      var src, step := SourcesAfter(s, prior[..n], repeatedSearch).value, prior[n];
      StepReturned(s, src, step, repeatedSearch);
      var out := StepSources(s, src, step, repeatedSearch).value;
      forall a | a in out.aliases ensures Returned(s, prior, out.aliases[a].ref) {
        if !NewRef(step, out.aliases[a].ref) {
          ReturnedGrows(s, prior, out.aliases[a].ref);
        }
      }
      forall e | e in out.events ensures Returned(s, prior, out.events[e].ref) {
        if !NewRef(step, out.events[e].ref) {
          ReturnedGrows(s, prior, out.events[e].ref);
        }
      }
    }
  }

  predicate NewRef(step: StepRecord, ref: string) {
    IsTool(step.kind) && ref in step.result.refs
  }

  lemma StepReturned(s: Snapshot, src: Sources, step: StepRecord, repeatedSearch: bool)
    requires StepSources(s, src, step, repeatedSearch).Success?
    ensures var out := StepSources(s, src, step, repeatedSearch).value;
            && (forall a :: a in out.aliases ==> NewRef(step, out.aliases[a].ref) || (a in src.aliases && out.aliases[a] == src.aliases[a]))
            && (forall e :: e in out.events ==> NewRef(step, out.events[e].ref) || (e in src.events && out.events[e] == src.events[e]))
  {
    if IsTool(step.kind) {
      var content := step.result.content;
      if step.kind == GetOrder {
        PointerRefs(src.aliases, "E1", step.result.refs[0], ORDER_POINTERS, content.located);
      } else if step.kind == GetDelivery {
        PointerRefs(src.aliases, "E2", step.result.refs[0], DELIVERY_POINTERS, content.located);
        var list := if content.delivery.Some? && content.delivery.value.events.Some? then content.delivery.value.events.value else [];
        EventRefs(src.events, step.result.refs[0], list);
      } else {
        CheckedHits(s, step.kind, step.result);
        HitRefs(src.(seen := src.seen + {step.kind}), content.matches, step.result.refs);
      }
    }
  }
}
