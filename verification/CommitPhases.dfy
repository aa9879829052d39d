/**
  The fullest agent runs: one closed history through every phase a bounded investigation knows. A
  model's unreadable answer is corrected into a search, the investigation ends, the ticket's status
  paragraph is read where it is missing, a policy supplement is asked for and read, and the proposal
  is committed and submitted.
*/
module CommitPhases {
  import opened Wrappers
  import opened Identity
  import opened SupportSources
  import opened SupportProposal
  import opened CommitGraph
  import opened CommitLanguage
  import opened CommitClosing
  import opened CommitRuns

  // ---------- the steps ----------

  const ASKED := "P01.1"
  const SUPPLEMENTED := "P03.1"
  const TOPIC := "missing_facts"

  function Unread(id: string): Step {
    Step(ModelDecision, StepResult("", id, [], NullContent, None, true))
  }

  function Corrected(id: string): Step {
    Step(ProtocolCorrection, StepResult("", id, [], ToolDecision(SearchPolicy, Query("policy")), None, false))
  }

  function Found(s: Snapshot, id: string, chunk: string): Step {
    Step(SearchPolicy, StepResult(id, id, [PolicyRef(s, chunk)], Search(s.id, [SampleHit(s, chunk)]), None, false))
  }

  function Wanted(id: string): Step {
    Step(ModelProposal, StepResult("", id, [], Supplement(TOPIC, [SUPPLEMENTED]), None, false))
  }

  /** The status paragraph is to be read after the investigation. */
  predicate NeedsStatus(p: Program, s: Snapshot) {
    p.ReadsStatusPolicy() && StatusAlias(s.ticket.status) != ""
  }

  function Investigated(s: Snapshot, id: string): seq<Step> {
    [TicketStep(s), Unread(id), Corrected(id), Found(s, id, ASKED), MarkerStep(id)]
  }

  function Judged(p: Program, s: Snapshot, id: string): seq<Step> {
    Investigated(s, id) + if NeedsStatus(p, s) then [Found(s, id, StatusAlias(s.ticket.status))] else []
  }

  function FullSteps(p: Program, s: Snapshot, id: string): seq<Step> {
    Judged(p, s, id) + [Wanted(id)] + [Found(s, id, SUPPLEMENTED)] + Closing(ModelProposal, id, ShortProposal(s, ASKED))
  }

  const INVESTIGATION: seq<StepKind> := [ReadTicket, ModelDecision, ProtocolCorrection, SearchPolicy, ModelDecision]

  function JudgedKinds(p: Program, s: Snapshot): seq<StepKind> {
    INVESTIGATION + if NeedsStatus(p, s) then [SearchPolicy] else []
  }

  function FullWord(p: Program, s: Snapshot): seq<StepKind> {
    JudgedKinds(p, s) + [ModelProposal] + [SearchPolicy] + [ModelProposal, SubmitProposal]
  }

  // ---------- what they return ----------

  predicate Paragraph(chunk: string) {
    PolicyAlias(chunk) && ValidIdentifier(chunk)
  }

  lemma Paragraphs(s: Snapshot)
    ensures Paragraph(ASKED) && Paragraph(SUPPLEMENTED)
    ensures StatusAlias(s.ticket.status) != "" ==> Paragraph(StatusAlias(s.ticket.status))
  {
  }

  lemma FoundFits(s: Snapshot, id: string, chunk: string)
    requires Captured(s) && Paragraph(chunk)
    ensures SupportTool(s, SearchPolicy, Record(Found(s, id, chunk)).result) == Success(false)
  {
    var hits := Found(s, id, chunk).result.content.matches;
    assert hits == [SampleHit(s, chunk)];
    assert SearchMatches(s, hits);
  }

  /** The policy paragraphs a history offers. */
  ghost predicate Offers(src: Sources, chunks: set<string>) {
    forall c :: PolicyAlias(c) ==> (c in src.aliases <==> c in chunks)
  }

  lemma {:induction false} PointersOfferNothing(aliases: map<string, Source>, ref: string, pointers: seq<string>, located: set<string>)
    requires forall c :: PolicyAlias(c) ==> c !in aliases
    ensures forall c :: PolicyAlias(c) ==> c !in AddPointers(aliases, "T", ref, pointers, located)
  {
    if pointers != [] {
      PointersOfferNothing(aliases, ref, pointers[..|pointers| - 1], located);
      assert ("T" + "#" + pointers[|pointers| - 1])[0] == 'T';
    }
  }

  lemma OpeningOffersNothing(s: Snapshot)
    ensures Offers(OpenSources(s), {})
  {
    PointersOfferNothing(map[], EvidenceRef(s, "ticket"), TICKET_POINTERS, s.located);
  }

  lemma FoundSources(s: Snapshot, id: string, src: Sources, chunk: string, chunks: set<string>)
    requires Captured(s) && Paragraph(chunk) && Uniform(s, src) && Offers(src, chunks)
    ensures var out := StepSources(s, src, Record(Found(s, id, chunk)), true);
            out.Success? && Uniform(s, out.value) && Offers(out.value, chunks + {chunk})
  {
    FoundFits(s, id, chunk);
    var marked, hits := src.(seen := src.seen + {SearchPolicy}), Found(s, id, chunk).result.content.matches;
    UniformHits(s, marked, hits);
    assert hits[..0] == [] && AddHits(marked, hits[..0]) == Success(marked);
  }

  // ---------- one step after another ----------

  /** A legal history that awaits `next` and offers these paragraphs. */
  ghost predicate Stands(rule: Rule, s: Snapshot, steps: seq<Step>, kinds: seq<StepKind>, next: StepKind, src: Sources, chunks: set<string>) {
    At(rule, s, true, steps, kinds, next, src) && Offers(src, chunks)
  }

  lemma StandOnModel(rule: Rule, s: Snapshot, steps: seq<Step>, kinds: seq<StepKind>, step: Step, next: StepKind,
                     src: Sources, chunks: set<string>)
    requires Stands(rule, s, steps, kinds, step.kind, src, chunks) && !IsTool(step.kind)
    requires rule(steps, step) == Success(Decision(Some(next), None))
    ensures Stands(rule, s, steps + [step], kinds + [step.kind], next, src, chunks)
  {
    LegalExtend(rule, steps, step, Some(next));
    KindsGrow(steps, step);
    SourcesUnchanged(s, steps, step, true);
  }

  lemma StandOnFound(rule: Rule, s: Snapshot, id: string, steps: seq<Step>, kinds: seq<StepKind>, chunk: string,
                     next: StepKind, src: Sources, chunks: set<string>) returns (out: Sources)
    requires Captured(s) && Paragraph(chunk) && Stands(rule, s, steps, kinds, SearchPolicy, src, chunks)
    requires rule(steps, Found(s, id, chunk)) == Success(Decision(Some(next), None))
    ensures Stands(rule, s, steps + [Found(s, id, chunk)], kinds + [SearchPolicy], next, out, chunks + {chunk})
  {
    var step := Found(s, id, chunk);
    LegalExtend(rule, steps, step, Some(next));
    KindsGrow(steps, step);
    FoundSources(s, id, src, chunk, chunks);
    SourcesExtend(s, steps, step, true);
    out := StepSources(s, src, Record(step), true).value;
  }

  // ---------- the graph accepts them ----------

  ghost predicate Settles(queries: string -> string, p: Program, s: Snapshot, prior: seq<Step>, step: Step, fits: Proposal -> bool, d: Decision) {
    Decide(queries, p, s, prior, step, fits) == Success(d)
  }

  ghost predicate AcceptsSettled(rule: Rule, queries: string -> string, p: Program, s: Snapshot, fits: Proposal -> bool) {
    forall prior, step, d :: Settles(queries, p, s, prior, step, fits, d) ==> rule(prior, step) == Success(d)
  }

  lemma GraphAcceptsSettled(queries: string -> string, p: Program, s: Snapshot, fits: Proposal -> bool)
    ensures AcceptsSettled(GraphRule(queries, p, s, fits), queries, p, s, fits)
  {
  }

  function Onto(next: StepKind): Decision {
    Decision(Some(next), None)
  }

  /** Everything this module uses of the graph's rule. */
  ghost predicate Ruled(rule: Rule, queries: string -> string, p: Program, s: Snapshot, id: string, fits: Proposal -> bool) {
    && Graphlike(rule, queries, p, s, fits) && AcceptsSettled(rule, queries, p, s, fits)
    && p.Agent() && p.Supplements() && Captured(s) && ValidUUID(id)
  }

  lemma UnreadDecided(queries: string -> string, p: Program, s: Snapshot, id: string, prior: seq<Step>, fits: Proposal -> bool)
    requires p.Agent() && ValidUUID(id) && !Contains(prior, ProtocolCorrection)
    ensures DecideAgent(queries, p, s, prior, Unread(id), fits) == Success(Onto(ProtocolCorrection))
  {
  }

  lemma AskIsCanonical(s: Snapshot)
    ensures AgentTool(s, ToolDecision(SearchPolicy, Query("policy"))) == Some(ToolDecision(SearchPolicy, Query("policy")))
  {
    assert TrimLeft("policy") == "policy" && TrimRight("policy") == "policy";
  }

  lemma CorrectedDecided(queries: string -> string, p: Program, s: Snapshot, id: string, prior: seq<Step>, fits: Proposal -> bool)
    requires p.Agent() && ValidUUID(id)
    ensures DecideAgent(queries, p, s, prior, Corrected(id), fits) == Success(Onto(SearchPolicy))
  {
    AskIsCanonical(s);
  }

  lemma MarkerDecided(queries: string -> string, p: Program, s: Snapshot, id: string, prior: seq<Step>, fits: Proposal -> bool)
    requires p.Agent() && p.Adjudicates() && ValidUUID(id)
    ensures !p.ReadsStatusPolicy() || MissingStatus(s, prior) == Success(None) ==>
              DecideAgent(queries, p, s, prior, MarkerStep(id), fits) == Success(Onto(ModelProposal))
    ensures p.ReadsStatusPolicy() && MissingStatus(s, prior).Success? && MissingStatus(s, prior).value.Some?
            && PendingStatus(queries, s, prior + [MarkerStep(id)]).Success? ==>
              DecideAgent(queries, p, s, prior, MarkerStep(id), fits) == Success(Onto(SearchPolicy))
  {
  }

  lemma FoundDecided(queries: string -> string, p: Program, s: Snapshot, id: string, prior: seq<Step>, chunk: string, next: StepKind)
    requires Captured(s) && ValidUUID(id) && Paragraph(chunk) && p.Agent()
    requires AgentToolNext(queries, p, s, prior, Found(s, id, chunk)) == Success(next)
    ensures DecideTool(queries, p, s, prior, Found(s, id, chunk)) == Success(Onto(next))
  {
    FoundFits(s, id, chunk);
  }

  lemma AskedNext(queries: string -> string, p: Program, s: Snapshot, id: string, prior: seq<Step>, chunk: string)
    requires p.Agent() && prior != [] && prior[|prior| - 1] == Corrected(id)
    ensures AgentToolNext(queries, p, s, prior, Found(s, id, chunk)) == Success(ModelDecision)
  {
    AskIsCanonical(s);
  }

  lemma StatusNext(queries: string -> string, p: Program, s: Snapshot, id: string, prior: seq<Step>, chunk: string)
    requires p.ReadsStatusPolicy() && prior != [] && Marker(prior[|prior| - 1]) && PendingStatus(queries, s, prior).Success?
    requires MissingStatus(s, prior + [Found(s, id, chunk)]) == Success(None)
    ensures AgentToolNext(queries, p, s, prior, Found(s, id, chunk)) == Success(ModelProposal)
  {
    var all := prior + [Found(s, id, chunk)];
    assert all[..|all| - 1] == prior;
  }

  lemma WantedDecided(queries: string -> string, p: Program, s: Snapshot, id: string, prior: seq<Step>, fits: Proposal -> bool)
    requires p.Agent() && p.Supplements() && ValidUUID(id) && AdjudicationPredecessor(queries, p, s, prior).Pass?
    requires CheckSupplement(queries, s, prior, Wanted(id).result.content).Pass?
    ensures DecideAgent(queries, p, s, prior, Wanted(id), fits) == Success(Onto(SearchPolicy))
  {
  }

  lemma SupplementNext(queries: string -> string, p: Program, s: Snapshot, id: string, prior: seq<Step>)
    requires p.Agent() && p.Supplements() && CheckSupplement(queries, s, prior, Wanted(id).result.content).Pass?
    requires SupplementSatisfied(s, prior + [Wanted(id)] + [Found(s, id, SUPPLEMENTED)], Wanted(id).result.content).Pass?
    ensures AgentToolNext(queries, p, s, prior + [Wanted(id)], Found(s, id, SUPPLEMENTED)) == Success(ModelProposal)
  {
    var all := prior + [Wanted(id)];
    assert all[..|all| - 1] == prior && all[|all| - 1] == Wanted(id);
  }

  // ---------- nothing stands in the way of a supplement ----------

  /** The steps that come before a supplement here. */
  predicate Quiet(id: string, step: Step) {
    step.kind.ReadTicket? || step.kind.SearchPolicy? || step == Unread(id) || step == Corrected(id) || step == MarkerStep(id)
  }

  lemma QuietDoesNotBlock(s: Snapshot, id: string, step: Step, query: string)
    requires Quiet(id, step) && query != "policy"
    ensures !Blocks(s, step, ToolDecision(SearchPolicy, Query(query)))
  {
    AskIsCanonical(s);
  }

  ghost predicate AllQuiet(id: string, steps: seq<Step>) {
    forall i :: 0 <= i < |steps| ==> Quiet(id, steps[i])
  }

  lemma SupplementChecked(queries: string -> string, s: Snapshot, id: string, prior: seq<Step>, c: Content, src: Sources, chunks: set<string>)
    requires ValidSupplement(c) && SourcesAfter(s, Records(prior), true) == Success(src) && Offers(src, chunks)
    requires forall i :: 0 <= i < |c.aliases| ==> PolicyAlias(c.aliases[i]) && c.aliases[i] !in chunks
    requires AllQuiet(id, prior) && queries(c.topic) != "policy" && (c.topic == "ticket_status" ==> !StatusRead(prior))
    ensures CheckSupplement(queries, s, prior, c).Pass?
  {
    forall i | 0 <= i < |prior| ensures !Blocks(s, prior[i], SupplementTool(queries, c.topic)) {
      QuietDoesNotBlock(s, id, prior[i], queries(c.topic));
    }
  }

  lemma StatusMissing(s: Snapshot, prior: seq<Step>, src: Sources, chunks: set<string>)
    requires SourcesAfter(s, Records(prior), true) == Success(src) && Offers(src, chunks)
    ensures var alias := StatusAlias(s.ticket.status);
            MissingStatus(s, prior)
            == Success(if alias == "" || alias in chunks then None else Some(Supplement("ticket_status", [alias])))
  {
    Paragraphs(s);
  }

  lemma StatusSupplementValid(s: Snapshot)
    requires StatusAlias(s.ticket.status) != ""
    ensures ValidSupplement(Supplement("ticket_status", [StatusAlias(s.ticket.status)]))
  {
  }

  lemma StatusPending(queries: string -> string, s: Snapshot, id: string, prior: seq<Step>, src: Sources, chunks: set<string>)
    requires SourcesAfter(s, Records(prior), true) == Success(src) && Offers(src, chunks)
    requires StatusAlias(s.ticket.status) != "" && StatusAlias(s.ticket.status) !in chunks
    requires prior != [] && Marker(prior[|prior| - 1]) && AllQuiet(id, prior) && !StatusRead(prior) && queries("ticket_status") != "policy"
    ensures PendingStatus(queries, s, prior).Success?
  {
    Paragraphs(s);
    StatusMissing(s, prior, src, chunks);
    StatusSupplementValid(s);
    SupplementChecked(queries, s, id, prior, Supplement("ticket_status", [StatusAlias(s.ticket.status)]), src, chunks);
  }

  lemma WantedChecked(queries: string -> string, s: Snapshot, id: string, prior: seq<Step>, src: Sources, chunks: set<string>)
    requires SourcesAfter(s, Records(prior), true) == Success(src) && Offers(src, chunks) && SUPPLEMENTED !in chunks
    requires AllQuiet(id, prior) && queries(TOPIC) != "policy"
    ensures CheckSupplement(queries, s, prior, Wanted(id).result.content).Pass?
  {
    Paragraphs(s);
    SupplementChecked(queries, s, id, prior, Wanted(id).result.content, src, chunks);
  }

  lemma WantedSatisfied(s: Snapshot, id: string, steps: seq<Step>, src: Sources, chunks: set<string>)
    requires SourcesAfter(s, Records(steps), true) == Success(src) && Offers(src, chunks) && SUPPLEMENTED in chunks
    ensures SupplementSatisfied(s, steps, Wanted(id).result.content).Pass?
  {
    Paragraphs(s);
  }

  // ---------- the run, phase by phase ----------

  lemma ModelSettled(rule: Rule, queries: string -> string, p: Program, s: Snapshot, id: string, steps: seq<Step>, step: Step,
                     fits: Proposal -> bool, d: Decision)
    requires Ruled(rule, queries, p, s, id, fits) && steps != [] && Legal(rule, steps) && NextKind(rule, steps) == Some(step.kind)
    requires IsModelStep(step.kind) && ValidEnvelope(p, step.result) && DecideAgent(queries, p, s, steps, step, fits) == Success(d)
    ensures rule(steps, step) == Success(d)
  {
    AwaitedNotRefused(rule, p, s, steps, step);
    ModelDispatch(queries, p, s, steps, step, fits, d);
    assert Settles(queries, p, s, steps, step, fits, d);
  }

  lemma FoundSettled(rule: Rule, queries: string -> string, p: Program, s: Snapshot, id: string, steps: seq<Step>,
                     chunk: string, fits: Proposal -> bool, next: StepKind)
    requires Ruled(rule, queries, p, s, id, fits) && steps != [] && Legal(rule, steps) && NextKind(rule, steps) == Some(SearchPolicy)
    requires Paragraph(chunk) && AgentToolNext(queries, p, s, steps, Found(s, id, chunk)) == Success(next)
    ensures rule(steps, Found(s, id, chunk)) == Success(Onto(next))
  {
    var step := Found(s, id, chunk);
    FoundDecided(queries, p, s, id, steps, chunk, next);
    AwaitedNotRefused(rule, p, s, steps, step);
    ToolDispatch(queries, p, s, steps, step, fits, Onto(next));
    assert Settles(queries, p, s, steps, step, fits, Onto(next));
  }

  /** An unreadable answer, its correction into a search, and the search. */
  lemma CorrectsOnce(rule: Rule, queries: string -> string, p: Program, s: Snapshot, id: string, fits: Proposal -> bool,
                     steps: seq<Step>, kinds: seq<StepKind>, src: Sources) returns (out: Sources)
    requires Ruled(rule, queries, p, s, id, fits) && steps != [] && !Contains(steps, ProtocolCorrection)
    requires Stands(rule, s, steps, kinds, ModelDecision, src, {})
    ensures Stands(rule, s, steps + [Unread(id)] + [Corrected(id)] + [Found(s, id, ASKED)],
                   kinds + [ModelDecision] + [ProtocolCorrection] + [SearchPolicy], ModelDecision, out, {ASKED})
  {
    UnreadDecided(queries, p, s, id, steps, fits);
    ModelSettled(rule, queries, p, s, id, steps, Unread(id), fits, Onto(ProtocolCorrection));
    StandOnModel(rule, s, steps, kinds, Unread(id), ProtocolCorrection, src, {});
    out := ReadsCorrected(rule, queries, p, s, id, fits, steps + [Unread(id)], kinds + [ModelDecision], src);
  }

  lemma ReadsCorrected(rule: Rule, queries: string -> string, p: Program, s: Snapshot, id: string, fits: Proposal -> bool,
                       steps: seq<Step>, kinds: seq<StepKind>, src: Sources) returns (out: Sources)
    requires Ruled(rule, queries, p, s, id, fits) && steps != [] && Stands(rule, s, steps, kinds, ProtocolCorrection, src, {})
    ensures Stands(rule, s, steps + [Corrected(id)] + [Found(s, id, ASKED)], kinds + [ProtocolCorrection] + [SearchPolicy],
                   ModelDecision, out, {ASKED})
  {
    CorrectedDecided(queries, p, s, id, steps, fits);
    ModelSettled(rule, queries, p, s, id, steps, Corrected(id), fits, Onto(SearchPolicy));
    StandOnModel(rule, s, steps, kinds, Corrected(id), SearchPolicy, src, {});
    Paragraphs(s);
    AskedNext(queries, p, s, id, steps + [Corrected(id)], ASKED);
    FoundSettled(rule, queries, p, s, id, steps + [Corrected(id)], ASKED, fits, ModelDecision);
    out := StandOnFound(rule, s, id, steps + [Corrected(id)], kinds + [ProtocolCorrection], ASKED, ModelDecision, src, {});
    assert {} + {ASKED} == {ASKED};
  }

  /** The end of the investigation; a missing status paragraph is awaited, and otherwise the proposal. */
  lemma Ends(rule: Rule, queries: string -> string, p: Program, s: Snapshot, id: string, fits: Proposal -> bool,
             steps: seq<Step>, kinds: seq<StepKind>, src: Sources)
    requires Ruled(rule, queries, p, s, id, fits) && steps != [] && Stands(rule, s, steps, kinds, ModelDecision, src, {ASKED})
    requires AllQuiet(id, steps + [MarkerStep(id)]) && !StatusRead(steps + [MarkerStep(id)]) && queries("ticket_status") != "policy"
    ensures Stands(rule, s, steps + [MarkerStep(id)], kinds + [ModelDecision], if NeedsStatus(p, s) then SearchPolicy else ModelProposal,
                   src, {ASKED})
    ensures NeedsStatus(p, s) ==> PendingStatus(queries, s, steps + [MarkerStep(id)]).Success?
  {
    var marker := MarkerStep(id);
    var next := if NeedsStatus(p, s) then SearchPolicy else ModelProposal;
    StatusMissing(s, steps, src, {ASKED});
    SourcesUnchanged(s, steps, marker, true);
    if NeedsStatus(p, s) {
      StatusPending(queries, s, id, steps + [marker], src, {ASKED});
    }
    MarkerDecided(queries, p, s, id, steps, fits);
    ModelSettled(rule, queries, p, s, id, steps, marker, fits, Onto(next));
    StandOnModel(rule, s, steps, kinds, marker, next, src, {ASKED});
  }

  lemma ReadsStatus(rule: Rule, queries: string -> string, p: Program, s: Snapshot, id: string, fits: Proposal -> bool,
                    steps: seq<Step>, kinds: seq<StepKind>, src: Sources) returns (out: Sources)
    requires Ruled(rule, queries, p, s, id, fits) && NeedsStatus(p, s) && steps != [] && Marker(steps[|steps| - 1])
    requires Stands(rule, s, steps, kinds, SearchPolicy, src, {ASKED}) && PendingStatus(queries, s, steps).Success?
    ensures var alias := StatusAlias(s.ticket.status);
            Stands(rule, s, steps + [Found(s, id, alias)], kinds + [SearchPolicy], ModelProposal, out, {ASKED, alias})
  {
    var alias := StatusAlias(s.ticket.status);
    Paragraphs(s);
    FoundSources(s, id, src, alias, {ASKED});
    SourcesExtend(s, steps, Found(s, id, alias), true);
    StatusMissing(s, steps + [Found(s, id, alias)], StepSources(s, src, Record(Found(s, id, alias)), true).value, {ASKED} + {alias});
    StatusNext(queries, p, s, id, steps, alias);
    FoundSettled(rule, queries, p, s, id, steps, alias, fits, ModelProposal);
    out := StandOnFound(rule, s, id, steps, kinds, alias, ModelProposal, src, {ASKED});
    assert {ASKED} + {alias} == {ASKED, alias};
  }

  /** A policy supplement and its read. */
  lemma Supplements(rule: Rule, queries: string -> string, p: Program, s: Snapshot, id: string, fits: Proposal -> bool,
                    steps: seq<Step>, kinds: seq<StepKind>, src: Sources, chunks: set<string>) returns (out: Sources)
    requires Ruled(rule, queries, p, s, id, fits) && steps != [] && Stands(rule, s, steps, kinds, ModelProposal, src, chunks)
    requires SUPPLEMENTED !in chunks && AllQuiet(id, steps) && queries(TOPIC) != "policy"
    ensures Stands(rule, s, steps + [Wanted(id)] + [Found(s, id, SUPPLEMENTED)], kinds + [ModelProposal] + [SearchPolicy], ModelProposal, out,
                   chunks + {SUPPLEMENTED})
  {
    WantedChecked(queries, s, id, steps, src, chunks);
    ReadyWhenAwaited(rule, queries, p, s, steps);
    WantedDecided(queries, p, s, id, steps, fits);
    ModelSettled(rule, queries, p, s, id, steps, Wanted(id), fits, Onto(SearchPolicy));
    StandOnModel(rule, s, steps, kinds, Wanted(id), SearchPolicy, src, chunks);
    out := ReadsSupplement(rule, queries, p, s, id, fits, steps, kinds, src, chunks);
  }

  lemma ReadsSupplement(rule: Rule, queries: string -> string, p: Program, s: Snapshot, id: string, fits: Proposal -> bool,
                        prior: seq<Step>, kinds: seq<StepKind>, src: Sources, chunks: set<string>) returns (out: Sources)
    requires Ruled(rule, queries, p, s, id, fits) && CheckSupplement(queries, s, prior, Wanted(id).result.content).Pass?
    requires Stands(rule, s, prior + [Wanted(id)], kinds + [ModelProposal], SearchPolicy, src, chunks)
    ensures Stands(rule, s, prior + [Wanted(id)] + [Found(s, id, SUPPLEMENTED)], kinds + [ModelProposal] + [SearchPolicy], ModelProposal, out,
                   chunks + {SUPPLEMENTED})
  {
    var steps, found := prior + [Wanted(id)], Found(s, id, SUPPLEMENTED);
    Paragraphs(s);
    FoundSources(s, id, src, SUPPLEMENTED, chunks);
    SourcesExtend(s, steps, found, true);
    WantedSatisfied(s, id, steps + [found], StepSources(s, src, Record(found), true).value, chunks + {SUPPLEMENTED});
    SupplementNext(queries, p, s, id, prior);
    FoundSettled(rule, queries, p, s, id, steps, SUPPLEMENTED, fits, ModelProposal);
    out := StandOnFound(rule, s, id, steps, kinds + [ModelProposal], SUPPLEMENTED, ModelProposal, src, chunks);
  }

  // ---------- the whole run ----------

  lemma TicketSources(s: Snapshot)
    requires Bound(s)
    ensures SourcesAfter(s, Records([TicketStep(s)]), true) == Success(OpenSources(s))
  {
    assert [] + [TicketStep(s)] == [TicketStep(s)];
    SourcesUnchanged(s, [], TicketStep(s), true);
  }

  lemma OpensAlone(rule: Rule, queries: string -> string, p: Program, s: Snapshot, id: string, fits: Proposal -> bool)
    returns (src: Sources)
    requires Ruled(rule, queries, p, s, id, fits) && AcceptsSteps(rule, p, s, id)
    ensures Stands(rule, s, [TicketStep(s)], [ReadTicket], ModelDecision, src, {})
  {
    src := Opens(rule, p, s, id, true);
    assert OpeningSteps(p, s, id) == [TicketStep(s)] && Opening(p) == [ReadTicket];
    TicketSources(s);
    OpeningOffersNothing(s);
  }

  lemma InvestigatedIsQuiet(s: Snapshot, id: string)
    ensures AllQuiet(id, Investigated(s, id)) && !StatusRead(Investigated(s, id)) && !Contains([TicketStep(s)], ProtocolCorrection)
    ensures forall chunk :: AllQuiet(id, Investigated(s, id) + [Found(s, id, chunk)])
  {
  }

  lemma InvestigatedShape(s: Snapshot, id: string)
    ensures Investigated(s, id) == [TicketStep(s)] + [Unread(id)] + [Corrected(id)] + [Found(s, id, ASKED)] + [MarkerStep(id)]
    ensures INVESTIGATION == [ReadTicket] + [ModelDecision] + [ProtocolCorrection] + [SearchPolicy] + [ModelDecision]
  {
  }

  lemma StandsInvestigated(rule: Rule, queries: string -> string, p: Program, s: Snapshot, id: string,
                           fits: Proposal -> bool) returns (src: Sources)
    requires Ruled(rule, queries, p, s, id, fits) && AcceptsSteps(rule, p, s, id) && queries("ticket_status") != "policy"
    ensures Stands(rule, s, Investigated(s, id), INVESTIGATION, if NeedsStatus(p, s) then SearchPolicy else ModelProposal, src, {ASKED})
    ensures NeedsStatus(p, s) ==> PendingStatus(queries, s, Investigated(s, id)).Success?
  {
    InvestigatedIsQuiet(s, id);
    InvestigatedShape(s, id);
    src := OpensAlone(rule, queries, p, s, id, fits);
    src := CorrectsOnce(rule, queries, p, s, id, fits, [TicketStep(s)], [ReadTicket], src);
    Ends(rule, queries, p, s, id, fits, [TicketStep(s)] + [Unread(id)] + [Corrected(id)] + [Found(s, id, ASKED)],
         [ReadTicket] + [ModelDecision] + [ProtocolCorrection] + [SearchPolicy], src);
  }

  lemma JudgedShape(p: Program, s: Snapshot, id: string)
    ensures NeedsStatus(p, s) ==>
              && Judged(p, s, id) == Investigated(s, id) + [Found(s, id, StatusAlias(s.ticket.status))]
              && JudgedKinds(p, s) == INVESTIGATION + [SearchPolicy]
    ensures !NeedsStatus(p, s) ==> Judged(p, s, id) == Investigated(s, id) && JudgedKinds(p, s) == INVESTIGATION
  {
  }

  lemma JudgedIsQuiet(p: Program, s: Snapshot, id: string)
    ensures AllQuiet(id, Judged(p, s, id))
  {
    InvestigatedIsQuiet(s, id);
    JudgedShape(p, s, id);
  }

  lemma StandsWithStatus(rule: Rule, queries: string -> string, p: Program, s: Snapshot, id: string, fits: Proposal -> bool,
                         steps: seq<Step>, kinds: seq<StepKind>, prior: Sources)
    returns (src: Sources, chunks: set<string>)
    requires Ruled(rule, queries, p, s, id, fits) && NeedsStatus(p, s) && steps != [] && Marker(steps[|steps| - 1])
    requires Stands(rule, s, steps, kinds, SearchPolicy, prior, {ASKED}) && PendingStatus(queries, s, steps).Success?
    ensures Stands(rule, s, steps + [Found(s, id, StatusAlias(s.ticket.status))], kinds + [SearchPolicy], ModelProposal, src, chunks)
    ensures SUPPLEMENTED !in chunks && ASKED in chunks
  {
    src := ReadsStatus(rule, queries, p, s, id, fits, steps, kinds, prior);
    chunks := {ASKED, StatusAlias(s.ticket.status)};
  }

  /** Up to the awaited proposal. */
  lemma StandsJudged(rule: Rule, queries: string -> string, p: Program, s: Snapshot, id: string, fits: Proposal -> bool)
    returns (src: Sources, chunks: set<string>)
    requires Ruled(rule, queries, p, s, id, fits) && AcceptsSteps(rule, p, s, id) && queries("ticket_status") != "policy"
    ensures Stands(rule, s, Judged(p, s, id), JudgedKinds(p, s), ModelProposal, src, chunks)
    ensures SUPPLEMENTED !in chunks && ASKED in chunks
  {
    src := StandsInvestigated(rule, queries, p, s, id, fits);
    chunks := {ASKED};
    JudgedShape(p, s, id);
    if NeedsStatus(p, s) {
      src, chunks := StandsWithStatus(rule, queries, p, s, id, fits, Investigated(s, id), INVESTIGATION, src);
    }
  }

  lemma ClosesFull(rule: Rule, queries: string -> string, p: Program, s: Snapshot, id: string, fits: Proposal -> bool,
                   steps: seq<Step>, kinds: seq<StepKind>, src: Sources, chunks: set<string>)
    requires Ruled(rule, queries, p, s, id, fits) && p.Adjudicates() && fits(ShortProposal(s, ASKED)) && ASKED in chunks
    requires Stands(rule, s, steps, kinds, ModelProposal, src, chunks)
    ensures Spelt(rule, steps + Closing(ModelProposal, id, ShortProposal(s, ASKED)), kinds + [ModelProposal, SubmitProposal])
  {
    Paragraphs(s);
    SomethingCompiles(s, Records(steps), ASKED, true, fits);
    KindsClose(steps, ModelProposal, id, ShortProposal(s, ASKED));
    RuleCloses(rule, queries, p, s, steps, ModelProposal, id, ShortAnswer(s, ASKED), fits, ShortProposal(s, ASKED));
  }

  lemma FullSpelt(rule: Rule, queries: string -> string, p: Program, s: Snapshot, id: string, fits: Proposal -> bool)
    requires Ruled(rule, queries, p, s, id, fits) && AcceptsSteps(rule, p, s, id) && fits(ShortProposal(s, ASKED))
    requires queries("ticket_status") != "policy" && queries(TOPIC) != "policy"
    ensures Spelt(rule, FullSteps(p, s, id), FullWord(p, s))
  {
    var src, chunks := StandsJudged(rule, queries, p, s, id, fits);
    var kinds := JudgedKinds(p, s);
    JudgedIsQuiet(p, s, id);
    src := Supplements(rule, queries, p, s, id, fits, Judged(p, s, id), kinds, src, chunks);
    ClosesFull(rule, queries, p, s, id, fits, Judged(p, s, id) + [Wanted(id)] + [Found(s, id, SUPPLEMENTED)],
               kinds + [ModelProposal] + [SearchPolicy], src, chunks + {SUPPLEMENTED});
  }

  // ---------- its reads are admitted ----------

  lemma AcceptedReadWasOrdered(queries: string -> string, p: Program, s: Snapshot, prior: seq<Step>, step: Step, fits: Proposal -> bool)
    requires p.Agent() && step.kind.SearchPolicy? && prior != [] && Decide(queries, p, s, prior, step, fits).Success?
    requires (p.Supplements() && prior[|prior| - 1].kind.ModelProposal?) || (p.ReadsStatusPolicy() && Marker(prior[|prior| - 1]))
    ensures CheckAdmission(queries, p, s, prior, step.kind).Pass?
  {
  }

  // The history is not taken apart, so automatic induction over it is switched off.
  lemma {:induction false} OrderedReadAdmitted(queries: string -> string, p: Program, s: Snapshot, steps: seq<Step>, fits: Proposal -> bool, j: nat)
    requires p.Agent() && Legal(GraphRule(queries, p, s, fits), steps) && 0 < j < |steps| && steps[j].kind.SearchPolicy?
    requires (p.Supplements() && steps[j - 1].kind.ModelProposal?) || (p.ReadsStatusPolicy() && Marker(steps[j - 1]))
    ensures CheckAdmission(queries, p, s, steps[..j], steps[j].kind).Pass?
  {
    LegalAt(GraphRule(queries, p, s, fits), steps, j);
    AcceptedReadWasOrdered(queries, p, s, steps[..j], steps[j], fits);
  }

  lemma CorrectedReadAdmitted(queries: string -> string, p: Program, s: Snapshot, id: string)
    requires p.Agent() && p.Supplements()
    ensures CheckAdmission(queries, p, s, [TicketStep(s), Unread(id), Corrected(id)], SearchPolicy).Pass?
  {
    AskIsCanonical(s);
  }

  lemma FullReads(p: Program, s: Snapshot, id: string, j: nat)
    requires j < |FullSteps(p, s, id)| && IsTool(FullSteps(p, s, id)[j].kind)
    ensures var steps := FullSteps(p, s, id);
            && j > 0 && steps[j].kind.SearchPolicy?
            && (|| steps[..j] == [TicketStep(s), Unread(id), Corrected(id)]
                || steps[j - 1].kind.ModelProposal?
                || (p.ReadsStatusPolicy() && Marker(steps[j - 1])))
  {
    var steps := FullSteps(p, s, id);
    assert steps[..3] == [TicketStep(s), Unread(id), Corrected(id)];
  }

  lemma FullAdmitted(queries: string -> string, p: Program, s: Snapshot, id: string, fits: Proposal -> bool)
    requires p.Agent() && p.Supplements() && Legal(GraphRule(queries, p, s, fits), FullSteps(p, s, id))
    ensures Admitted(queries, p, s, FullSteps(p, s, id), fits)
  {
    var steps := FullSteps(p, s, id);
    forall j | 0 <= j < |steps| && IsTool(steps[j].kind) ensures CheckAdmission(queries, p, s, steps[..j], steps[j].kind).Pass? {
      FullReads(p, s, id, j);
      if steps[..j] == [TicketStep(s), Unread(id), Corrected(id)] {
        CorrectedReadAdmitted(queries, p, s, id);
      } else {
        OrderedReadAdmitted(queries, p, s, steps, fits, j);
      }
    }
  }

  // ---------- and it does everything as often as an agent may ----------

  lemma CountSnoc(steps: seq<Step>, step: Step, role: Role)
    ensures Count(steps + [step], role) == Count(steps, role) + if Plays(step, role) then 1 else 0
  {
    assert (steps + [step])[..|steps|] == steps;
  }

  lemma CountInvestigated(s: Snapshot, id: string, role: Role)
    ensures Count(Investigated(s, id), role) == if role.CorrectionRole? || role.MarkerRole? then 1 else 0
  {
    InvestigatedShape(s, id);
    var a := [TicketStep(s)];
    assert [] + a == a;
    CountSnoc([], TicketStep(s), role);
    CountSnoc(a, Unread(id), role);
    CountSnoc(a + [Unread(id)], Corrected(id), role);
    CountSnoc(a + [Unread(id)] + [Corrected(id)], Found(s, id, ASKED), role);
    CountSnoc(a + [Unread(id)] + [Corrected(id)] + [Found(s, id, ASKED)], MarkerStep(id), role);
  }

  lemma CountFull(p: Program, s: Snapshot, id: string, role: Role)
    ensures Count(FullSteps(p, s, id), role) == Left(Ticketing, role)
  {
    var judged, proposal := Judged(p, s, id), ShortProposal(s, ASKED);
    var read := judged + [Wanted(id)] + [Found(s, id, SUPPLEMENTED)];
    CountInvestigated(s, id, role);
    if NeedsStatus(p, s) {
      CountSnoc(Investigated(s, id), Found(s, id, StatusAlias(s.ticket.status)), role);
    } else {
      assert judged == Investigated(s, id);
    }
    CountSnoc(judged, Wanted(id), role);
    CountSnoc(judged + [Wanted(id)], Found(s, id, SUPPLEMENTED), role);
    CountSnoc(read, ProposalStep(ModelProposal, id, proposal), role);
    CountSnoc(read + [ProposalStep(ModelProposal, id, proposal)], SubmitStep(proposal), role);
    ClosingShape(read, ModelProposal, id, proposal);
  }

  /**
    Under the programs that know supplements there is, on every coherent snapshot, a closed and admitted
    run through every phase: it is corrected once, ends its investigation once, reads the status
    paragraph where its program wants it, asks for one supplement, proposes twice and submits once, so
    every bound on how often these happen is attained.
  */
  lemma FullestRun(queries: string -> string, p: Program, s: Snapshot, id: string, fits: Proposal -> bool)
    requires p.Supplements() && Captured(s) && ValidUUID(id) && fits(ShortProposal(s, ASKED))
    requires queries("ticket_status") != "policy" && queries(TOPIC) != "policy"
    ensures Spelt(GraphRule(queries, p, s, fits), FullSteps(p, s, id), FullWord(p, s))
    ensures Admitted(queries, p, s, FullSteps(p, s, id), fits)
    ensures forall role :: Count(FullSteps(p, s, id), role) == Left(Ticketing, role)
  {
    GraphIsGraphlike(queries, p, s, fits);
    GraphAcceptsSettled(queries, p, s, fits);
    GraphAcceptsSteps(queries, p, s, id, fits);
    FullSpelt(GraphRule(queries, p, s, fits), queries, p, s, id, fits);
    FullAdmitted(queries, p, s, id, fits);
    forall role ensures Count(FullSteps(p, s, id), role) == Left(Ticketing, role) {
      CountFull(p, s, id, role);
    }
  }
}
