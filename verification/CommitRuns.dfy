/**
  Closed histories of every support program, step by step, for any coherent snapshot: the languages
  of the fixed programs are spoken word for word, and the agents' investigations come to an end.
*/
module CommitRuns {
  import opened Wrappers
  import opened Identity
  import opened BusinessModel
  import opened SupportSources
  import opened SupportProposal
  import opened CommitGraph
  import opened CommitLanguage
  import opened CommitClosing

  // ---------- the steps ----------

  predicate Complete(r: Relation) {
    r.exists' ==> r.id.Some? && r.revision.Some?
  }

  /** A snapshot as the business source captures it. */
  predicate Captured(s: Snapshot) {
    && Bound(s) && s.ticket.status in {"open", "awaiting_information", "escalated", "informational_only"}
    && Complete(s.vector.order) && Complete(s.vector.delivery) && (s.vector.delivery.exists' ==> s.vector.order.exists')
  }

  /** The paragraph every run here cites: the one on the ticket's status where there is one. */
  function Cited(s: Snapshot): string {
    if StatusAlias(s.ticket.status) == "" then "P01.1" else StatusAlias(s.ticket.status)
  }

  function SampleHit(s: Snapshot, chunk: string): Hit {
    Hit(s.indexId, chunk, s.ticket.policyVersion, PolicyRef(s, chunk), "policy", "paragraph", None)
  }

  function TicketStep(s: Snapshot): Step {
    Step(ReadTicket, StepResult("", "", [EvidenceRef(s, "ticket")], TicketContent(s.ticket), None, false))
  }

  function BundleStep(s: Snapshot, id: string): Step {
    Step(ReadPolicyBundle, StepResult(id, id, seq(20, i requires 0 <= i < 20 => PolicyRef(s, BundleAliases()[i])),
                                      Search(s.id, seq(20, i requires 0 <= i < 20 => SampleHit(s, BundleAliases()[i]))), None, false))
  }

  function MissingReason(r: Relation): string {
    if r.exists' then "" else if r.id.None? then "not_associated" else "record_not_found"
  }

  function OrderStep(s: Snapshot, id: string): Step {
    var r := s.vector.order;
    var order := if r.exists' && r.id.Some? && r.revision.Some? then Some(Order(s.tenantId, r.id.value, r.revision.value, s.vector.delivery.id, ""))
                 else None;
    Step(GetOrder, StepResult(id, id, [EvidenceRef(s, "order")],
                              Evidence(s.id, EvidenceRef(s, "order"), "order", Some(!r.exists'), MissingReason(r), false, order, None, {}),
                              None, false))
  }

  function DeliveryStep(s: Snapshot, id: string): Step {
    var r := s.vector.delivery;
    var delivery := if r.exists' && r.id.Some? && r.revision.Some? && s.ticket.orderId.Some? then
                      Some(Delivery(s.tenantId, r.id.value, s.ticket.orderId.value, r.revision.value, Some([]), ""))
                    else None;
    Step(GetDelivery, StepResult(id, id, [EvidenceRef(s, "delivery")],
                                 Evidence(s.id, EvidenceRef(s, "delivery"), "delivery", Some(!r.exists'), MissingReason(r), false, None, delivery, {}),
                                 None, false))
  }

  function SearchStep(s: Snapshot, id: string): Step {
    Step(SearchPolicy, StepResult(id, id, [PolicyRef(s, Cited(s))], Search(s.id, [SampleHit(s, Cited(s))]), None, false))
  }

  function AskStep(id: string): Step {
    Step(ModelDecision, StepResult("", id, [], ToolDecision(SearchPolicy, Query("policy")), None, false))
  }

  function MarkerStep(id: string): Step {
    Step(ModelDecision, StepResult("", id, [], InvestigationComplete("no order"), None, false))
  }

  function UnreadableStep(id: string): Step {
    Step(ModelProposal, StepResult("", id, [], NullContent, None, true))
  }

  // ---------- the graph accepts them ----------

  /** Where each of these steps belongs. */
  ghost predicate Sample(p: Program, s: Snapshot, id: string, prior: seq<Step>, step: Step) {
    match step.kind
    case ReadTicket => step == TicketStep(s)
    case ReadPolicyBundle => p.ReadsBundle() && step == BundleStep(s, id)
    case GetOrder => p.Fixed() && step == OrderStep(s, id)
    case GetDelivery => p.Fixed() && s.vector.order.exists' && step == DeliveryStep(s, id)
    case SearchPolicy => step == SearchStep(s, id) && (p.Agent() ==> prior != [] && prior[|prior| - 1] == AskStep(id))
    case ModelDecision => p.Agent() && (step == AskStep(id) || (step == MarkerStep(id) && MarkerFits(p, s, prior)))
    case ModelProposal => p.FixedHistorical? && step == UnreadableStep(id)
    case _ => false
  }

  ghost predicate MarkerFits(p: Program, s: Snapshot, prior: seq<Step>) {
    p.Adjudicates() && (p.ReadsStatusPolicy() ==> MissingStatus(s, prior) == Success(None))
  }

  function NextOf(p: Program, s: Snapshot, step: Step): StepKind {
    match step.kind
    case ReadTicket => if p.ReadsBundle() then ReadPolicyBundle else if p.Agent() then ModelDecision else GetOrder
    case ModelDecision => if step.result.content.InvestigationComplete? then ModelProposal else SearchPolicy
    case ModelProposal => ProtocolCorrection
    case GetOrder => FixedNext(p, GetOrder, !s.vector.order.exists')
    case _ => if p.Agent() then ModelDecision else FixedNext(p, step.kind, false)
  }

  lemma OrderFits(s: Snapshot, id: string)
    requires Captured(s)
    ensures SupportTool(s, GetOrder, Record(OrderStep(s, id)).result) == Success(!s.vector.order.exists')
  {
  }

  lemma DeliveryFits(s: Snapshot, id: string)
    requires Captured(s) && s.vector.order.exists'
    ensures SupportTool(s, GetDelivery, Record(DeliveryStep(s, id)).result) == Success(!s.vector.delivery.exists')
  {
  }

  lemma CitedIsPolicy(s: Snapshot)
    ensures PolicyAlias(Cited(s)) && ValidIdentifier(Cited(s))
  {
  }

  lemma SearchFits(s: Snapshot, id: string)
    requires Captured(s)
    ensures SupportTool(s, SearchPolicy, Record(SearchStep(s, id)).result) == Success(false)
  {
    CitedIsPolicy(s);
    var hits := SearchStep(s, id).result.content.matches;
    assert hits == [SampleHit(s, Cited(s))];
    assert SearchMatches(s, hits);
  }

  lemma BundleFits(s: Snapshot, id: string)
    requires Captured(s)
    ensures SupportTool(s, ReadPolicyBundle, Record(BundleStep(s, id)).result) == Success(false)
  {
    assert ValidBundle(s, Record(BundleStep(s, id)).result);
  }

  lemma SampleTool(s: Snapshot, id: string, step: Step)
    requires Captured(s) && IsTool(step.kind)
    requires step == OrderStep(s, id) || (step == DeliveryStep(s, id) && s.vector.order.exists') || step == SearchStep(s, id) || step == BundleStep(s, id)
    ensures SupportTool(s, step.kind, Record(step).result) == Success(if step.kind.GetOrder? then !s.vector.order.exists' else
                                                               if step.kind.GetDelivery? then !s.vector.delivery.exists' else false)
  {
    if step.kind.GetOrder? {
      OrderFits(s, id);
    } else if step.kind.GetDelivery? {
      DeliveryFits(s, id);
    } else if step.kind.SearchPolicy? {
      SearchFits(s, id);
    } else {
      BundleFits(s, id);
    }
  }

  lemma FixedToolDecided(queries: string -> string, p: Program, s: Snapshot, id: string, prior: seq<Step>, step: Step)
    requires Captured(s) && ValidUUID(id) && p.Fixed() && IsTool(step.kind) && Sample(p, s, id, prior, step)
    ensures DecideTool(queries, p, s, prior, step) == Success(Decision(Some(NextOf(p, s, step)), None))
  {
    SampleTool(s, id, step);
  }

  lemma AskIsPending(s: Snapshot, id: string, prior: seq<Step>)
    requires prior != [] && prior[|prior| - 1] == AskStep(id)
    ensures PendingModelTool(s, prior, SearchPolicy) == Success(ToolDecision(SearchPolicy, Query("policy")))
  {
    assert TrimLeft("policy") == "policy" && TrimRight("policy") == "policy";
  }

  lemma AgentToolDecided(queries: string -> string, p: Program, s: Snapshot, id: string, prior: seq<Step>, step: Step)
    requires Captured(s) && ValidUUID(id) && p.Agent() && IsTool(step.kind) && Sample(p, s, id, prior, step)
    requires CheckBundle(p, s, prior, step.kind).Pass?
    ensures DecideTool(queries, p, s, prior, step) == Success(Decision(Some(NextOf(p, s, step)), None))
  {
    SampleTool(s, id, step);
    if step.kind.SearchPolicy? {
      AskIsPending(s, id, prior);
    }
    AgentNext(queries, p, s, id, prior, step);
  }

  lemma AgentNext(queries: string -> string, p: Program, s: Snapshot, id: string, prior: seq<Step>, step: Step)
    requires p.Agent() && IsTool(step.kind) && Sample(p, s, id, prior, step) && CheckBundle(p, s, prior, step.kind).Pass?
    requires step.kind.SearchPolicy? ==> PendingModelTool(s, prior, SearchPolicy).Success?
    ensures AgentToolNext(queries, p, s, prior, step) == Success(ModelDecision)
  {
  }

  lemma DecisionDecided(queries: string -> string, p: Program, s: Snapshot, id: string, prior: seq<Step>, step: Step,
                        fits: Proposal -> bool)
    requires ValidUUID(id) && p.Agent() && step.kind.ModelDecision? && Sample(p, s, id, prior, step)
    ensures DecideAgent(queries, p, s, prior, step, fits) == Success(Decision(Some(NextOf(p, s, step)), None))
  {
    assert TrimLeft("policy") == "policy" && TrimRight("policy") == "policy";
    assert AgentTool(s, ToolDecision(SearchPolicy, Query("policy"))) == Some(ToolDecision(SearchPolicy, Query("policy")));
  }

  lemma UnreadableDecided(p: Program, s: Snapshot, id: string, prior: seq<Step>, fits: Proposal -> bool)
    requires ValidUUID(id) && p.FixedHistorical?
    ensures DecideFixed(p, s, prior, UnreadableStep(id), fits) == Success(Decision(Some(ProtocolCorrection), None))
  {
  }

  lemma TicketDecided(p: Program, s: Snapshot)
    requires p.Fixed() || p.Agent()
    ensures DecideTicket(p, s, TicketStep(s).result) == Success(Decision(Some(NextOf(p, s, TicketStep(s))), None))
  {
  }

  lemma ToolDispatch(queries: string -> string, p: Program, s: Snapshot, prior: seq<Step>, step: Step, fits: Proposal -> bool, d: Decision)
    requires Refusal(p, s, prior, step).None? && IsTool(step.kind) && DecideTool(queries, p, s, prior, step) == Success(d)
    ensures Decide(queries, p, s, prior, step, fits) == Success(d)
  {
  }

  lemma TicketDispatch(queries: string -> string, p: Program, s: Snapshot, prior: seq<Step>, step: Step, fits: Proposal -> bool,
                       d: Decision)
    requires Refusal(p, s, prior, step).None? && step.kind.ReadTicket? && DecideTicket(p, s, step.result) == Success(d)
    ensures Decide(queries, p, s, prior, step, fits) == Success(d)
  {
  }

  lemma SampleDecided(queries: string -> string, p: Program, s: Snapshot, id: string, prior: seq<Step>, step: Step, fits: Proposal -> bool)
    requires Captured(s) && ValidUUID(id) && (p.Fixed() || p.Agent()) && Sample(p, s, id, prior, step)
    requires Refusal(p, s, prior, step).None?
    ensures Decide(queries, p, s, prior, step, fits) == Success(Decision(Some(NextOf(p, s, step)), None))
  {
    var d := Decision(Some(NextOf(p, s, step)), None);
    if step.kind.ReadTicket? {
      TicketDecided(p, s);
      TicketDispatch(queries, p, s, prior, step, fits, d);
    } else if IsTool(step.kind) {
      if p.Agent() {
        NotRefusedHasBundle(p, s, prior, step);
        AgentToolDecided(queries, p, s, id, prior, step);
      } else {
        FixedToolDecided(queries, p, s, id, prior, step);
      }
      ToolDispatch(queries, p, s, prior, step, fits, d);
    } else {
      if p.Agent() {
        DecisionDecided(queries, p, s, id, prior, step, fits);
      } else {
        UnreadableDecided(p, s, id, prior, fits);
      }
      ModelDispatch(queries, p, s, prior, step, fits, d);
    }
  }

  lemma NotRefusedHasBundle(p: Program, s: Snapshot, prior: seq<Step>, step: Step)
    requires Refusal(p, s, prior, step).None?
    ensures CheckBundle(p, s, prior, step.kind).Pass?
  {
  }

  ghost predicate AcceptsSteps(rule: Rule, p: Program, s: Snapshot, id: string) {
    forall prior, step :: Sample(p, s, id, prior, step) && Refusal(p, s, prior, step).None? ==>
      rule(prior, step) == Success(Decision(Some(NextOf(p, s, step)), None))
  }

  lemma GraphAcceptsSteps(queries: string -> string, p: Program, s: Snapshot, id: string, fits: Proposal -> bool)
    requires Captured(s) && ValidUUID(id) && (p.Fixed() || p.Agent())
    ensures AcceptsSteps(GraphRule(queries, p, s, fits), p, s, id)
  {
    var rule := GraphRule(queries, p, s, fits);
    forall prior, step | Sample(p, s, id, prior, step) && Refusal(p, s, prior, step).None?
      ensures rule(prior, step) == Success(Decision(Some(NextOf(p, s, step)), None))
    {
      SampleDecided(queries, p, s, id, prior, step, fits);
    }
  }

  // ---------- the sources they leave ----------

  /** Every paragraph known so far is a sample. */
  ghost predicate Uniform(s: Snapshot, src: Sources) {
    forall c :: c in src.policies ==> src.policies[c] == SampleHit(s, c)
  }

  lemma {:induction false} UniformHits(s: Snapshot, src: Sources, hits: seq<Hit>)
    requires Uniform(s, src) && forall h :: h in hits ==> h == SampleHit(s, h.chunkId)
    ensures AddHits(src, hits).Success?
    ensures var out := AddHits(src, hits).value;
            && Uniform(s, out) && out.seen == src.seen && src.aliases.Keys <= out.aliases.Keys
            && forall h :: h in hits ==> h.chunkId in out.aliases
  {
    if hits != [] {
      var n := |hits| - 1;
      UniformHits(s, src, hits[..n]);
      assert hits[n] in hits && hits == hits[..n] + [hits[n]];
    }
  }

  lemma CitedInBundle(s: Snapshot, id: string)
    ensures exists h :: h in BundleStep(s, id).result.content.matches && h.chunkId == Cited(s)
  {
    var matches, aliases := BundleStep(s, id).result.content.matches, BundleAliases();
    var i := if Cited(s) == "P01.1" then 0 else if Cited(s) == "P08.1" then 14 else 15;
    assert aliases[i] == Cited(s) && matches[i] == SampleHit(s, aliases[i]);
  }

  lemma PolicySources(s: Snapshot, id: string, src: Sources, step: Step, repeatedSearch: bool)
    requires Captured(s) && Uniform(s, src) && step.kind !in src.seen && (step == SearchStep(s, id) || step == BundleStep(s, id))
    ensures var out := StepSources(s, src, Record(step), repeatedSearch);
            && out.Success? && Uniform(s, out.value) && out.value.seen == src.seen + {step.kind}
            && src.aliases.Keys <= out.value.aliases.Keys && Cited(s) in out.value.aliases
  {
    SampleTool(s, id, step);
    CitedInBundle(s, id);
    var marked, matches := src.(seen := src.seen + {step.kind}), step.result.content.matches;
    if step.kind.SearchPolicy? {
      assert matches == [SampleHit(s, Cited(s))] && matches[0] in matches;
    }
    UniformHits(s, marked, matches);
  }

  lemma ObjectSources(s: Snapshot, id: string, src: Sources, step: Step, repeatedSearch: bool)
    requires Captured(s) && Uniform(s, src) && step.kind !in src.seen
    requires step == OrderStep(s, id) || (step == DeliveryStep(s, id) && s.vector.order.exists')
    ensures var out := StepSources(s, src, Record(step), repeatedSearch);
            && out.Success? && Uniform(s, out.value) && out.value.seen == src.seen + {step.kind} && src.aliases.Keys <= out.value.aliases.Keys
  {
    SampleTool(s, id, step);
    PointersGrow(src.aliases, "E1", step.result.refs[0], ORDER_POINTERS, {});
    PointersGrow(src.aliases, "E2", step.result.refs[0], DELIVERY_POINTERS, {});
  }

  // ---------- one step after another ----------

  /** A legal history with these kinds that awaits `next`, and the sources it offers. */
  ghost predicate At(rule: Rule, s: Snapshot, repeatedSearch: bool, steps: seq<Step>, kinds: seq<StepKind>, next: StepKind, src: Sources) {
    && Legal(rule, steps) && NextKind(rule, steps) == Some(next) && Kinds(steps) == kinds
    && SourcesAfter(s, Records(steps), repeatedSearch) == Success(src) && Uniform(s, src)
  }

  /** What a step adds to the sources. */
  ghost predicate Adds(s: Snapshot, src: Sources, step: Step, out: Sources) {
    && src.aliases.Keys <= out.aliases.Keys && out.seen == (if IsTool(step.kind) then src.seen + {step.kind} else src.seen)
    && (step.kind.SearchPolicy? || step.kind.ReadPolicyBundle? ==> Cited(s) in out.aliases)
  }

  lemma KindsGrow(steps: seq<Step>, step: Step)
    ensures Kinds(steps + [step]) == Kinds(steps) + [step.kind]
  {
  }

  lemma SourcesOnward(p: Program, s: Snapshot, id: string, prior: seq<Step>, step: Step, src: Sources,
                      repeatedSearch: bool) returns (out: Sources)
    requires Captured(s) && Sample(p, s, id, prior, step) && (IsTool(step.kind) ==> step.kind !in src.seen)
    requires SourcesAfter(s, Records(prior), repeatedSearch) == Success(src) && Uniform(s, src)
    ensures SourcesAfter(s, Records(prior + [step]), repeatedSearch) == Success(out) && Uniform(s, out) && Adds(s, src, step, out)
  {
    SourcesExtend(s, prior, step, repeatedSearch);
    if !IsTool(step.kind) {
      out := src;
    } else {
      if step.kind.GetOrder? || step.kind.GetDelivery? {
        ObjectSources(s, id, src, step, repeatedSearch);
      } else {
        PolicySources(s, id, src, step, repeatedSearch);
      }
      out := StepSources(s, src, Record(step), repeatedSearch).value;
    }
  }

  lemma SampleEnvelope(p: Program, s: Snapshot, id: string, prior: seq<Step>, step: Step)
    requires ValidUUID(id) && Sample(p, s, id, prior, step)
    ensures ValidEnvelope(p, step.result)
  {
  }

  lemma Onward(rule: Rule, p: Program, s: Snapshot, id: string, repeatedSearch: bool, steps: seq<Step>,
               kinds: seq<StepKind>, step: Step, src: Sources) returns (out: Sources)
    requires AcceptsSteps(rule, p, s, id) && Captured(s) && At(rule, s, repeatedSearch, steps, kinds, step.kind, src)
    requires Sample(p, s, id, steps, step) && Refusal(p, s, steps, step).None? && (IsTool(step.kind) ==> step.kind !in src.seen)
    ensures At(rule, s, repeatedSearch, steps + [step], kinds + [step.kind], NextOf(p, s, step), out) && Adds(s, src, step, out)
  {
    LegalExtend(rule, steps, step, Some(NextOf(p, s, step)));
    KindsGrow(steps, step);
    out := SourcesOnward(p, s, id, steps, step, src, repeatedSearch);
  }

  lemma LaterOnward(rule: Rule, p: Program, s: Snapshot, id: string, repeatedSearch: bool, steps: seq<Step>,
                    kinds: seq<StepKind>, step: Step, src: Sources) returns (out: Sources)
    requires ChecksSteps(rule, p, s) && AcceptsSteps(rule, p, s, id) && Captured(s) && ValidUUID(id) && (p.Fixed() || p.Agent())
    requires steps != [] && At(rule, s, repeatedSearch, steps, kinds, step.kind, src) && !step.kind.ReadTicket?
    requires !step.kind.ReadPolicyBundle?
    requires Sample(p, s, id, steps, step) && (IsTool(step.kind) ==> step.kind !in src.seen)
    ensures At(rule, s, repeatedSearch, steps + [step], kinds + [step.kind], NextOf(p, s, step), out) && Adds(s, src, step, out)
  {
    SampleEnvelope(p, s, id, steps, step);
    AwaitedNotRefused(rule, p, s, steps, step);
    out := Onward(rule, p, s, id, repeatedSearch, steps, kinds, step, src);
  }

  function OpeningSteps(p: Program, s: Snapshot, id: string): seq<Step> {
    if p.ReadsBundle() then [TicketStep(s), BundleStep(s, id)] else [TicketStep(s)]
  }

  lemma OpeningNotRefused(p: Program, s: Snapshot, id: string)
    requires Captured(s) && ValidUUID(id) && (p.Fixed() || p.Agent())
    ensures Refusal(p, s, [], TicketStep(s)).None?
    ensures p.ReadsBundle() ==> Refusal(p, s, [TicketStep(s)], BundleStep(s, id)).None?
  {
    SampleEnvelope(p, s, id, [], TicketStep(s));
    if p.ReadsBundle() {
      SampleEnvelope(p, s, id, [], BundleStep(s, id));
    }
  }

  lemma Opens(rule: Rule, p: Program, s: Snapshot, id: string, repeatedSearch: bool) returns (src: Sources)
    requires AcceptsSteps(rule, p, s, id) && Captured(s) && ValidUUID(id) && (p.Fixed() || p.Agent())
    ensures At(rule, s, repeatedSearch, OpeningSteps(p, s, id), Opening(p), if p.Agent() then ModelDecision else GetOrder, src)
    ensures src.seen <= {ReadPolicyBundle} && (p.ReadsBundle() ==> Cited(s) in src.aliases)
  {
    OpeningNotRefused(p, s, id);
    assert Legal(rule, []) && Kinds([]) == [] && SourcesAfter(s, Records([]), repeatedSearch) == Success(OpenSources(s));
    src := Onward(rule, p, s, id, repeatedSearch, [], [], TicketStep(s), OpenSources(s));
    assert [] + [TicketStep(s)] == [TicketStep(s)] && [] + [ReadTicket] == [ReadTicket];
    if p.ReadsBundle() {
      src := Onward(rule, p, s, id, repeatedSearch, [TicketStep(s)], [ReadTicket], BundleStep(s, id), src);
      assert [TicketStep(s)] + [BundleStep(s, id)] == OpeningSteps(p, s, id) && [ReadTicket] + [ReadPolicyBundle] == Opening(p);
    }
  }

  // ---------- the words of the fixed programs ----------

  function OrderSteps(s: Snapshot, id: string): seq<Step> {
    if s.vector.order.exists' then [OrderStep(s, id), DeliveryStep(s, id)] else [OrderStep(s, id)]
  }

  function OrderKinds(s: Snapshot): seq<StepKind> {
    if s.vector.order.exists' then [GetOrder, GetDelivery] else [GetOrder]
  }

  function ReadSteps(p: Program, s: Snapshot, id: string): seq<Step> {
    OpeningSteps(p, s, id) + OrderSteps(s, id) + if p.ReadsBundle() then [] else [SearchStep(s, id)]
  }

  lemma ReadsDelivery(rule: Rule, p: Program, s: Snapshot, id: string, steps: seq<Step>, kinds: seq<StepKind>,
                      src: Sources)
    returns (out: Sources)
    requires ChecksSteps(rule, p, s) && AcceptsSteps(rule, p, s, id) && Captured(s) && ValidUUID(id) && p.Fixed() && s.vector.order.exists'
    requires At(rule, s, false, steps + [OrderStep(s, id)], kinds + [GetOrder], GetDelivery, src)
    requires src.seen <= {ReadPolicyBundle, GetOrder}
    ensures At(rule, s, false, steps + OrderSteps(s, id), kinds + OrderKinds(s), if p.ReadsBundle() then ModelProposal else SearchPolicy, out)
    ensures src.aliases.Keys <= out.aliases.Keys && SearchPolicy !in out.seen
  {
    out := LaterOnward(rule, p, s, id, false, steps + [OrderStep(s, id)], kinds + [GetOrder], DeliveryStep(s, id), src);
    assert steps + [OrderStep(s, id)] + [DeliveryStep(s, id)] == steps + OrderSteps(s, id);
    assert kinds + [GetOrder] + [GetDelivery] == kinds + OrderKinds(s);
  }

  lemma ReadsOrder(rule: Rule, p: Program, s: Snapshot, id: string, steps: seq<Step>, kinds: seq<StepKind>, src: Sources)
    returns (out: Sources)
    requires ChecksSteps(rule, p, s) && AcceptsSteps(rule, p, s, id) && Captured(s) && ValidUUID(id) && p.Fixed()
    requires steps != [] && At(rule, s, false, steps, kinds, GetOrder, src) && src.seen <= {ReadPolicyBundle}
    ensures At(rule, s, false, steps + OrderSteps(s, id), kinds + OrderKinds(s), if p.ReadsBundle() then ModelProposal else SearchPolicy, out)
    ensures src.aliases.Keys <= out.aliases.Keys && SearchPolicy !in out.seen
  {
    out := LaterOnward(rule, p, s, id, false, steps, kinds, OrderStep(s, id), src);
    if s.vector.order.exists' {
      out := ReadsDelivery(rule, p, s, id, steps, kinds, out);
    }
  }

  lemma ReadsShape(p: Program, s: Snapshot, id: string)
    ensures p.ReadsBundle() ==> ReadSteps(p, s, id) == OpeningSteps(p, s, id) + OrderSteps(s, id)
                                && Reads(p, s.vector.order.exists') == Opening(p) + OrderKinds(s)
    ensures !p.ReadsBundle() ==> ReadSteps(p, s, id) == OpeningSteps(p, s, id) + OrderSteps(s, id) + [SearchStep(s, id)]
                                 && Reads(p, s.vector.order.exists') == Opening(p) + OrderKinds(s) + [SearchPolicy]
  {
  }

  lemma ReadsAll(rule: Rule, p: Program, s: Snapshot, id: string) returns (src: Sources)
    requires ChecksSteps(rule, p, s) && AcceptsSteps(rule, p, s, id) && Captured(s) && ValidUUID(id) && p.Fixed()
    ensures At(rule, s, false, ReadSteps(p, s, id), Reads(p, s.vector.order.exists'), ModelProposal, src) && Cited(s) in src.aliases
  {
    src := Opens(rule, p, s, id, false);
    src := ReadsOrder(rule, p, s, id, OpeningSteps(p, s, id), Opening(p), src);
    ReadsShape(p, s, id);
    if !p.ReadsBundle() {
      src := LaterOnward(rule, p, s, id, false, OpeningSteps(p, s, id) + OrderSteps(s, id), Opening(p) + OrderKinds(s), SearchStep(s, id), src);
    }
  }

  function FixedSteps(p: Program, s: Snapshot, id: string, correction: bool): seq<Step> {
    ReadSteps(p, s, id) + (if correction then [UnreadableStep(id)] else [])
    + Closing(if correction then ProtocolCorrection else ModelProposal, id, ShortProposal(s, Cited(s)))
  }

  lemma CitedCompiles(s: Snapshot, steps: seq<Step>, repeatedSearch: bool, src: Sources, fits: Proposal -> bool)
    requires Captured(s) && fits(ShortProposal(s, Cited(s)))
    requires SourcesAfter(s, Records(steps), repeatedSearch) == Success(src) && Cited(s) in src.aliases
    ensures Compile(s, Records(steps), ShortAnswer(s, Cited(s)), repeatedSearch, fits) == Success(ShortProposal(s, Cited(s)))
  {
    CitedIsPolicy(s);
    SomethingCompiles(s, Records(steps), Cited(s), repeatedSearch, fits);
  }

  /** The history has these kinds and is closed. */
  ghost predicate Spelt(rule: Rule, steps: seq<Step>, kinds: seq<StepKind>) {
    Legal(rule, steps) && NextKind(rule, steps).None? && Kinds(steps) == kinds
  }

  lemma KindsClose(steps: seq<Step>, kind: StepKind, call: string, proposal: Proposal)
    ensures Kinds(steps + Closing(kind, call, proposal)) == Kinds(steps) + [kind, SubmitProposal]
  {
  }

  lemma CloseHere(rule: Rule, queries: string -> string, p: Program, s: Snapshot, id: string, steps: seq<Step>,
                  kinds: seq<StepKind>, kind: StepKind, src: Sources, fits: Proposal -> bool)
    requires Graphlike(rule, queries, p, s, fits) && Captured(s) && ValidUUID(id) && Proposes(p, kind) && fits(ShortProposal(s, Cited(s)))
    requires At(rule, s, p.Agent(), steps, kinds, kind, src) && Cited(s) in src.aliases
    ensures Spelt(rule, steps + Closing(kind, id, ShortProposal(s, Cited(s))), kinds + [kind, SubmitProposal])
  {
    var proposal := ShortProposal(s, Cited(s));
    CitedCompiles(s, steps, p.Agent(), src, fits);
    KindsClose(steps, kind, id, proposal);
    RuleCloses(rule, queries, p, s, steps, kind, id, ShortAnswer(s, Cited(s)), fits, proposal);
  }

  lemma FixedShape(p: Program, s: Snapshot, id: string, correction: bool)
    ensures var proposal, delivery := ShortProposal(s, Cited(s)), s.vector.order.exists';
            if correction then
              && FixedSteps(p, s, id, correction) == ReadSteps(p, s, id) + [UnreadableStep(id)] + Closing(ProtocolCorrection, id, proposal)
              && FixedWord(p, delivery, correction) == Reads(p, delivery) + [ModelProposal] + [ProtocolCorrection, SubmitProposal]
            else
              && FixedSteps(p, s, id, correction) == ReadSteps(p, s, id) + Closing(ModelProposal, id, proposal)
              && FixedWord(p, delivery, correction) == Reads(p, delivery) + [ModelProposal, SubmitProposal]
  {
    assert ReadSteps(p, s, id) + [] == ReadSteps(p, s, id);
  }

  lemma FixedCloses(rule: Rule, queries: string -> string, p: Program, s: Snapshot, id: string, correction: bool,
                    fits: Proposal -> bool, steps: seq<Step>, kinds: seq<StepKind>, src: Sources)
    requires Graphlike(rule, queries, p, s, fits) && AcceptsSteps(rule, p, s, id) && Captured(s) && ValidUUID(id) && p.Fixed()
    requires fits(ShortProposal(s, Cited(s))) && (correction ==> !p.Adjudicates())
    requires steps != [] && At(rule, s, false, steps, kinds, ModelProposal, src) && Cited(s) in src.aliases
    ensures var proposal := ShortProposal(s, Cited(s));
            if correction then
              Spelt(rule, steps + [UnreadableStep(id)] + Closing(ProtocolCorrection, id, proposal), kinds + [ModelProposal] + [ProtocolCorrection, SubmitProposal])
            else Spelt(rule, steps + Closing(ModelProposal, id, proposal), kinds + [ModelProposal, SubmitProposal])
  {
    if correction {
      var out := LaterOnward(rule, p, s, id, false, steps, kinds, UnreadableStep(id), src);
      CloseHere(rule, queries, p, s, id, steps + [UnreadableStep(id)], kinds + [ModelProposal], ProtocolCorrection, out, fits);
    } else {
      CloseHere(rule, queries, p, s, id, steps, kinds, ModelProposal, src, fits);
    }
  }

  lemma FixedSpelt(rule: Rule, queries: string -> string, p: Program, s: Snapshot, id: string, correction: bool,
                   fits: Proposal -> bool)
    requires Graphlike(rule, queries, p, s, fits) && AcceptsSteps(rule, p, s, id) && Captured(s) && ValidUUID(id) && p.Fixed()
    requires fits(ShortProposal(s, Cited(s))) && (correction ==> !p.Adjudicates())
    ensures Spelt(rule, FixedSteps(p, s, id, correction), FixedWord(p, s.vector.order.exists', correction))
  {
    var src := ReadsAll(rule, p, s, id);
    FixedCloses(rule, queries, p, s, id, correction, fits, ReadSteps(p, s, id), Reads(p, s.vector.order.exists'), src);
    FixedShape(p, s, id, correction);
  }

  /**
    Every word of a support-fixed program's language is spoken: for every coherent snapshot there is a
    legal closed history that spells the registered word, with the delivery read exactly when there is an
    order, and with a correction wherever the program knows one.
  */
  lemma FixedWordsAreSpoken(queries: string -> string, p: Program, s: Snapshot, id: string, correction: bool, fits: Proposal -> bool)
    requires p.Fixed() && Captured(s) && ValidUUID(id) && fits(ShortProposal(s, Cited(s))) && (correction ==> !p.Adjudicates())
    ensures Spelt(GraphRule(queries, p, s, fits), FixedSteps(p, s, id, correction), FixedWord(p, s.vector.order.exists', correction))
  {
    GraphIsGraphlike(queries, p, s, fits);
    GraphAcceptsSteps(queries, p, s, id, fits);
    FixedSpelt(GraphRule(queries, p, s, fits), queries, p, s, id, correction, fits);
  }

  // ---------- an investigation of each agent program ----------

  function AskedSteps(p: Program, s: Snapshot, id: string): seq<Step> {
    OpeningSteps(p, s, id) + [AskStep(id), SearchStep(s, id)]
  }

  function AgentSteps(p: Program, s: Snapshot, id: string): seq<Step> {
    AskedSteps(p, s, id) + (if p.Adjudicates() then [MarkerStep(id)] else [])
    + Closing(if p.Adjudicates() then ModelProposal else ModelDecision, id, ShortProposal(s, Cited(s)))
  }

  function AgentWord(p: Program): seq<StepKind> {
    Opening(p) + [ModelDecision, SearchPolicy, ModelDecision] + (if p.Adjudicates() then [ModelProposal] else []) + [SubmitProposal]
  }

  lemma AskedShape(p: Program, s: Snapshot, id: string)
    ensures AskedSteps(p, s, id) == OpeningSteps(p, s, id) + [AskStep(id)] + [SearchStep(s, id)]
    ensures Opening(p) + [ModelDecision, SearchPolicy] == Opening(p) + [ModelDecision] + [SearchPolicy]
  {
  }

  lemma SearchesOnce(rule: Rule, p: Program, s: Snapshot, id: string) returns (src: Sources)
    requires ChecksSteps(rule, p, s) && AcceptsSteps(rule, p, s, id) && Captured(s) && ValidUUID(id) && p.Agent()
    ensures At(rule, s, true, AskedSteps(p, s, id), Opening(p) + [ModelDecision, SearchPolicy], ModelDecision, src)
    ensures Cited(s) in src.aliases
  {
    var steps, kinds := OpeningSteps(p, s, id), Opening(p);
    src := Opens(rule, p, s, id, true);
    src := LaterOnward(rule, p, s, id, true, steps, kinds, AskStep(id), src);
    src := LaterOnward(rule, p, s, id, true, steps + [AskStep(id)], kinds + [ModelDecision], SearchStep(s, id), src);
    AskedShape(p, s, id);
  }

  lemma StatusIsKnown(s: Snapshot, steps: seq<Step>, src: Sources)
    requires SourcesAfter(s, Records(steps), true) == Success(src) && Cited(s) in src.aliases
    ensures MissingStatus(s, steps) == Success(None)
  {
  }

  lemma AgentConcludes(rule: Rule, queries: string -> string, p: Program, s: Snapshot, id: string,
                       fits: Proposal -> bool, steps: seq<Step>, kinds: seq<StepKind>, src: Sources)
    requires Graphlike(rule, queries, p, s, fits) && AcceptsSteps(rule, p, s, id) && Captured(s) && ValidUUID(id) && p.Agent()
    requires p.Adjudicates()
    requires fits(ShortProposal(s, Cited(s))) && steps != [] && At(rule, s, true, steps, kinds, ModelDecision, src)
    requires Cited(s) in src.aliases
    ensures Spelt(rule, steps + [MarkerStep(id)] + Closing(ModelProposal, id, ShortProposal(s, Cited(s))),
                  kinds + [ModelDecision] + [ModelProposal, SubmitProposal])
  {
    StatusIsKnown(s, steps, src);
    var out := LaterOnward(rule, p, s, id, true, steps, kinds, MarkerStep(id), src);
    CloseHere(rule, queries, p, s, id, steps + [MarkerStep(id)], kinds + [ModelDecision], ModelProposal, out, fits);
  }

  lemma AgentShape(p: Program, s: Snapshot, id: string)
    ensures var proposal, kinds := ShortProposal(s, Cited(s)), Opening(p) + [ModelDecision, SearchPolicy];
            if p.Adjudicates() then
              && AgentSteps(p, s, id) == AskedSteps(p, s, id) + [MarkerStep(id)] + Closing(ModelProposal, id, proposal)
              && AgentWord(p) == kinds + [ModelDecision] + [ModelProposal, SubmitProposal]
            else
              && AgentSteps(p, s, id) == AskedSteps(p, s, id) + Closing(ModelDecision, id, proposal)
              && AgentWord(p) == kinds + [ModelDecision, SubmitProposal]
  {
    assert AskedSteps(p, s, id) + [] == AskedSteps(p, s, id);
  }

  lemma AgentSpelt(rule: Rule, queries: string -> string, p: Program, s: Snapshot, id: string, fits: Proposal -> bool)
    requires Graphlike(rule, queries, p, s, fits) && AcceptsSteps(rule, p, s, id) && Captured(s) && ValidUUID(id) && p.Agent()
    requires fits(ShortProposal(s, Cited(s)))
    ensures Spelt(rule, AgentSteps(p, s, id), AgentWord(p))
  {
    var src := SearchesOnce(rule, p, s, id);
    var steps, kinds := AskedSteps(p, s, id), Opening(p) + [ModelDecision, SearchPolicy];
    AgentShape(p, s, id);
    if p.Adjudicates() {
      AgentConcludes(rule, queries, p, s, id, fits, steps, kinds, src);
    } else {
      CloseHere(rule, queries, p, s, id, steps, kinds, ModelDecision, src, fits);
    }
  }

  lemma ReadsOfAgent(p: Program, s: Snapshot, id: string, j: nat)
    requires j < |AgentSteps(p, s, id)| && IsTool(AgentSteps(p, s, id)[j].kind)
    ensures var steps := AgentSteps(p, s, id);
            steps[j].kind.ReadPolicyBundle? || (steps[j].kind.SearchPolicy? && steps[..j] == OpeningSteps(p, s, id) + [AskStep(id)])
  {
    AskedShape(p, s, id);
    var n := |OpeningSteps(p, s, id)|;
    assert AgentSteps(p, s, id)[..n + 2] == AskedSteps(p, s, id);
  }

  /** Every read of that investigation passes its admission check. */
  lemma AgentReadsAdmitted(queries: string -> string, p: Program, s: Snapshot, id: string, fits: Proposal -> bool)
    requires p.Agent() && Legal(GraphRule(queries, p, s, fits), AgentSteps(p, s, id))
    ensures Admitted(queries, p, s, AgentSteps(p, s, id), fits)
  {
    var steps := AgentSteps(p, s, id);
    forall j | 0 <= j < |steps| && IsTool(steps[j].kind) ensures CheckAdmission(queries, p, s, steps[..j], steps[j].kind).Pass? {
      StepChecked(queries, p, s, steps, fits, j);
      ReadsOfAgent(p, s, id, j);
      if !steps[j].kind.ReadPolicyBundle? {
        SearchAdmitted(queries, p, s, id, steps[..j]);
      }
    }
  }

  lemma StepChecked(queries: string -> string, p: Program, s: Snapshot, steps: seq<Step>, fits: Proposal -> bool, j: nat)
    requires Legal(GraphRule(queries, p, s, fits), steps) && j < |steps|
    ensures CheckBundle(p, s, steps[..j], steps[j].kind).Pass?
  {
    LegalAt(GraphRule(queries, p, s, fits), steps, j);
    AcceptedIsChecked(queries, p, s, steps[..j], steps[j], fits);
  }

  lemma SearchAdmitted(queries: string -> string, p: Program, s: Snapshot, id: string, prior: seq<Step>)
    requires CheckBundle(p, s, prior, SearchPolicy).Pass? && prior == OpeningSteps(p, s, id) + [AskStep(id)]
    ensures CheckAdmission(queries, p, s, prior, SearchPolicy).Pass?
  {
    AskIsPending(s, id, prior);
    assert prior[..|prior| - 1] == OpeningSteps(p, s, id);
    assert forall i :: 0 <= i < |prior| - 1 ==> !Asks(prior[i]);
  }

  /**
    Every agent program has a closed run on every coherent snapshot: it reads what it must, asks for one
    search, ends its investigation if the program has an adjudication, proposes and submits.
  */
  lemma AgentRunsClose(queries: string -> string, p: Program, s: Snapshot, id: string, fits: Proposal -> bool)
    requires p.Agent() && Captured(s) && ValidUUID(id) && fits(ShortProposal(s, Cited(s)))
    ensures Spelt(GraphRule(queries, p, s, fits), AgentSteps(p, s, id), AgentWord(p))
    ensures Admitted(queries, p, s, AgentSteps(p, s, id), fits)
  {
    GraphIsGraphlike(queries, p, s, fits);
    GraphAcceptsSteps(queries, p, s, id, fits);
    AgentSpelt(GraphRule(queries, p, s, fits), queries, p, s, id, fits);
    AgentReadsAdmitted(queries, p, s, id, fits);
  }
}
