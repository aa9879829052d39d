/**
  How runs come to an end: a history that awaits a proposal can be closed with whatever compiles on
  it, under every support program, and such histories exist for every coherent snapshot.
*/
module CommitClosing {
  import opened Wrappers
  import opened Identity
  import opened BusinessModel
  import opened SupportSources
  import opened SupportProposal
  import opened CommitGraph
  import opened CommitLanguage

  // ---------- what a legal history has behind it ----------

  lemma LegalLast(rule: Rule, steps: seq<Step>)
    requires steps != [] && Legal(rule, steps)
    ensures var n := |steps| - 1;
            && Legal(rule, steps[..n]) && NextKind(rule, steps[..n]) == Some(steps[n].kind)
            && rule(steps[..n], steps[n]).Success? && NextKind(rule, steps) == rule(steps[..n], steps[n]).value.next
  {
  }

  /** What an accepted step says about the bundle before it, and in it. */
  ghost predicate Checked(p: Program, s: Snapshot, prior: seq<Step>, step: Step, next: Option<StepKind>) {
    && !p.Unregistered? && Enveloped(p, prior) && ValidEnvelope(p, step.result) && CheckBundle(p, s, prior, step.kind).Pass?
    && (step.kind.ReadPolicyBundle? ==> ValidBundle(s, ToolResult(step.result.refs, step.result.content)))
    && (step.kind.ReadTicket? && p.ReadsBundle() ==> next == Some(ReadPolicyBundle))
  }

  ghost predicate Enveloped(p: Program, steps: seq<Step>) {
    forall i :: 0 <= i < |steps| ==> ValidEnvelope(p, steps[i].result)
  }

  ghost predicate ChecksSteps(rule: Rule, p: Program, s: Snapshot) {
    forall prior: seq<Step>, step: Step :: rule(prior, step).Success? ==> Checked(p, s, prior, step, rule(prior, step).value.next)
  }

  lemma AcceptedIsChecked(queries: string -> string, p: Program, s: Snapshot, prior: seq<Step>, step: Step, fits: Proposal -> bool)
    requires Decide(queries, p, s, prior, step, fits).Success?
    ensures Checked(p, s, prior, step, Decide(queries, p, s, prior, step, fits).value.next)
  {
  }

  lemma GraphChecksSteps(queries: string -> string, p: Program, s: Snapshot, fits: Proposal -> bool)
    ensures ChecksSteps(GraphRule(queries, p, s, fits), p, s)
  {
    var rule := GraphRule(queries, p, s, fits);
    forall prior: seq<Step>, step: Step | rule(prior, step).Success? ensures Checked(p, s, prior, step, rule(prior, step).value.next) {
      AcceptedIsChecked(queries, p, s, prior, step, fits);
    }
  }

  lemma LegalEnvelopes(rule: Rule, p: Program, s: Snapshot, steps: seq<Step>)
    requires ChecksSteps(rule, p, s) && Legal(rule, steps)
    ensures Enveloped(p, steps)
  {
    if steps != [] {
      var n := |steps| - 1;
      LegalLast(rule, steps);
      assert Checked(p, s, steps[..n], steps[n], rule(steps[..n], steps[n]).value.next);
      forall i | 0 <= i < |steps| ensures ValidEnvelope(p, steps[i].result) {
        assert i < n ==> steps[i] == steps[..n][i];
      }
    }
  }

  /** Everything CheckBundle wants of a history for a later step. */
  ghost predicate Bundled(p: Program, s: Snapshot, steps: seq<Step>) {
    if !p.ReadsBundle() then !Contains(steps, ReadPolicyBundle)
    else
      && |steps| >= 2 && steps[0].kind.ReadTicket? && steps[1].kind.ReadPolicyBundle? && !Contains(steps[2..], ReadPolicyBundle)
      && ValidEnvelope(p, steps[1].result) && ValidBundle(s, ToolResult(steps[1].result.refs, steps[1].result.content))
  }

  lemma BundledPasses(p: Program, s: Snapshot, steps: seq<Step>, kind: StepKind)
    requires Bundled(p, s, steps) && !kind.ReadTicket? && !kind.ReadPolicyBundle?
    ensures CheckBundle(p, s, steps, kind).Pass?
  {
  }

  lemma BundledStep(p: Program, s: Snapshot, prior: seq<Step>, step: Step)
    requires CheckBundle(p, s, prior, step.kind).Pass? && ValidEnvelope(p, step.result)
    requires step.kind.ReadPolicyBundle? ==> ValidBundle(s, ToolResult(step.result.refs, step.result.content))
    requires step.kind.ReadTicket? ==> !p.ReadsBundle()
    ensures Bundled(p, s, prior + [step])
  {
    var steps := prior + [step];
    ContainsGrows(prior, step, ReadPolicyBundle);
    if p.ReadsBundle() {
      if |prior| == 1 {
        assert steps[2..] == [];
      } else {
        assert steps[2..] == prior[2..] + [step];
        ContainsGrows(prior[2..], step, ReadPolicyBundle);
      }
    }
  }

  /** Once the bundle, where there is one, has been read, no later step is refused for it. */
  lemma LegalBundled(rule: Rule, p: Program, s: Snapshot, steps: seq<Step>)
    requires ChecksSteps(rule, p, s) && steps != [] && Legal(rule, steps) && NextKind(rule, steps) != Some(ReadPolicyBundle)
    ensures Bundled(p, s, steps)
  {
    var n := |steps| - 1;
    LegalLast(rule, steps);
    assert Checked(p, s, steps[..n], steps[n], rule(steps[..n], steps[n]).value.next);
    BundledStep(p, s, steps[..n], steps[n]);
    assert steps[..n] + [steps[n]] == steps;
  }

  lemma AwaitedNotRefused(rule: Rule, p: Program, s: Snapshot, steps: seq<Step>, step: Step)
    requires ChecksSteps(rule, p, s) && steps != [] && Legal(rule, steps) && NextKind(rule, steps) == Some(step.kind)
    requires !step.kind.ReadTicket? && !step.kind.ReadPolicyBundle? && !p.Unregistered? && ValidEnvelope(p, step.result)
    ensures Refusal(p, s, steps, step).None?
  {
    LegalEnvelopes(rule, p, s, steps);
    LegalBundled(rule, p, s, steps);
    BundledPasses(p, s, steps, step.kind);
  }

  // ---------- sources only grow ----------

  lemma {:induction false} PointersGrow(aliases: map<string, Source>, prefix: string, ref: string, pointers: seq<string>,
                                        located: set<string>)
    ensures aliases.Keys <= AddPointers(aliases, prefix, ref, pointers, located).Keys
    ensures located == {} ==> AddPointers(aliases, prefix, ref, pointers, located) == aliases
  {
    if pointers != [] {
      PointersGrow(aliases, prefix, ref, pointers[..|pointers| - 1], located);
    }
  }

  lemma {:induction false} HitsGrow(src: Sources, hits: seq<Hit>)
    requires AddHits(src, hits).Success?
    ensures src.aliases.Keys <= AddHits(src, hits).value.aliases.Keys
  {
    if hits != [] {
      HitsGrow(src, hits[..|hits| - 1]);
    }
  }

  lemma StepGrows(s: Snapshot, src: Sources, step: StepRecord, repeatedSearch: bool)
    requires StepSources(s, src, step, repeatedSearch).Success?
    ensures src.aliases.Keys <= StepSources(s, src, step, repeatedSearch).value.aliases.Keys
  {
    if step.kind.GetOrder? {
      PointersGrow(src.aliases, "E1", step.result.refs[0], ORDER_POINTERS, step.result.content.located);
    } else if step.kind.GetDelivery? {
      PointersGrow(src.aliases, "E2", step.result.refs[0], DELIVERY_POINTERS, step.result.content.located);
    } else if IsTool(step.kind) {
      HitsGrow(src.(seen := src.seen + {step.kind}), step.result.content.matches);
    }
  }

  function Record(step: Step): StepRecord {
    StepRecord(step.kind, ToolResult(step.result.refs, step.result.content))
  }

  /** A history's sources after one more step. */
  lemma SourcesExtend(s: Snapshot, prior: seq<Step>, step: Step, repeatedSearch: bool)
    requires Bound(s)
    ensures var before := SourcesAfter(s, Records(prior), repeatedSearch);
            SourcesAfter(s, Records(prior + [step]), repeatedSearch)
            == if before.Failure? then before else StepSources(s, before.value, Record(step), repeatedSearch)
  {
    var records := Records(prior + [step]);
    assert records[..|prior|] == Records(prior) && records[|prior|] == Record(step);
  }

  lemma SourcesUnchanged(s: Snapshot, prior: seq<Step>, step: Step, repeatedSearch: bool)
    requires !IsTool(step.kind)
    ensures SourcesAfter(s, Records(prior + [step]), repeatedSearch) == SourcesAfter(s, Records(prior), repeatedSearch)
  {
    if Bound(s) {
      SourcesExtend(s, prior, step, repeatedSearch);
    }
  }

  lemma StatusStaysKnown(s: Snapshot, prior: seq<Step>, step: Step)
    requires MissingStatus(s, prior) == Success(None) && SourcesAfter(s, Records(prior + [step]), true).Success?
    ensures MissingStatus(s, prior + [step]) == Success(None)
  {
    if StatusAlias(s.ticket.status) != "" {
      SourcesExtend(s, prior, step, true);
      StepGrows(s, SourcesAfter(s, Records(prior), true).value, Record(step), true);
    }
  }

  // ---------- an awaited adjudication has what it needs ----------

  ghost predicate MarkerPrepares(p: Program, s: Snapshot, prior: seq<Step>, step: Step) {
    Marker(step) && (p.ReadsStatusPolicy() ==> MissingStatus(s, prior) == Success(None))
  }

  ghost predicate ReadPrepares(queries: string -> string, p: Program, s: Snapshot, prior: seq<Step>, step: Step) {
    && prior != [] && step.kind.SearchPolicy? && step.result.proposal.None? && !step.result.correctionRequired
    && PendingTool(queries, p, s, prior, step.kind).Success?
    && var last := prior[|prior| - 1];
       || (p.ReadsStatusPolicy() && Marker(last) && StatusSatisfied(queries, s, prior + [step]).Pass?)
       || (p.Supplements() && last.kind.ModelProposal? && SupplementSatisfied(s, prior + [step], last.result.content).Pass?)
  }

  /** What the rule's accepted steps tell of the way to an adjudication, each in its own predicate. */
  ghost predicate MarkersPrepare(rule: Rule, p: Program, s: Snapshot) {
    forall prior: seq<Step>, step: Step :: rule(prior, step).Success? && rule(prior, step).value.next == Some(ModelProposal) && !IsTool(step.kind) ==>
      MarkerPrepares(p, s, prior, step)
  }

  ghost predicate ReadsPrepare(rule: Rule, queries: string -> string, p: Program, s: Snapshot) {
    forall prior: seq<Step>, step: Step :: rule(prior, step).Success? && rule(prior, step).value.next == Some(ModelProposal) && IsTool(step.kind) ==>
      ReadPrepares(queries, p, s, prior, step)
  }

  ghost predicate MarkersLead(rule: Rule) {
    forall prior: seq<Step>, step: Step :: rule(prior, step).Success? && Marker(step) ==>
      rule(prior, step).value.next == Some(ModelProposal) || rule(prior, step).value.next == Some(SearchPolicy)
  }

  ghost predicate ProposalsKnowStatus(rule: Rule, p: Program, s: Snapshot) {
    forall prior: seq<Step>, step: Step :: rule(prior, step).Success? && step.kind.ModelProposal? && p.ReadsStatusPolicy() ==>
      MissingStatus(s, prior) == Success(None)
  }

  lemma NextPrepares(queries: string -> string, p: Program, s: Snapshot, prior: seq<Step>, step: Step)
    requires AgentToolNext(queries, p, s, prior, step) == Success(ModelProposal) && IsTool(step.kind)
    requires step.result.proposal.None? && !step.result.correctionRequired && (step.kind.ReadPolicyBundle? ==> |prior| == 1 && prior[0].kind.ReadTicket?)
    ensures ReadPrepares(queries, p, s, prior, step)
  {
  }

  lemma AgentToolPrepares(queries: string -> string, p: Program, s: Snapshot, prior: seq<Step>, step: Step)
    requires p.Agent() && IsTool(step.kind) && CheckBundle(p, s, prior, step.kind).Pass? && DecideTool(queries, p, s, prior, step).Success?
    requires DecideTool(queries, p, s, prior, step).value.next == Some(ModelProposal)
    ensures ReadPrepares(queries, p, s, prior, step)
  {
    NextPrepares(queries, p, s, prior, step);
  }

  lemma AcceptedReadPrepares(queries: string -> string, p: Program, s: Snapshot, prior: seq<Step>, step: Step, fits: Proposal -> bool)
    requires p.Agent() && IsTool(step.kind) && Decide(queries, p, s, prior, step, fits).Success?
    requires Decide(queries, p, s, prior, step, fits).value.next == Some(ModelProposal)
    ensures ReadPrepares(queries, p, s, prior, step)
  {
    AgentToolPrepares(queries, p, s, prior, step);
  }

  lemma ModelPrepares(queries: string -> string, p: Program, s: Snapshot, prior: seq<Step>, step: Step, fits: Proposal -> bool)
    requires p.Agent() && !IsTool(step.kind) && DecideAgent(queries, p, s, prior, step, fits).Success?
    ensures DecideAgent(queries, p, s, prior, step, fits).value.next == Some(ModelProposal) ==> MarkerPrepares(p, s, prior, step)
    ensures step.kind.ModelProposal? && p.ReadsStatusPolicy() ==> MissingStatus(s, prior) == Success(None)
  {
  }

  lemma AcceptedModelPrepares(queries: string -> string, p: Program, s: Snapshot, prior: seq<Step>, step: Step, fits: Proposal -> bool)
    requires p.Agent() && !IsTool(step.kind) && Decide(queries, p, s, prior, step, fits).Success?
    ensures Decide(queries, p, s, prior, step, fits).value.next == Some(ModelProposal) ==> MarkerPrepares(p, s, prior, step)
    ensures step.kind.ModelProposal? && p.ReadsStatusPolicy() ==> MissingStatus(s, prior) == Success(None)
  {
    if !step.kind.ReadTicket? {
      ModelPrepares(queries, p, s, prior, step, fits);
    }
  }

  lemma AcceptedMarkerLeads(queries: string -> string, p: Program, s: Snapshot, prior: seq<Step>, step: Step, fits: Proposal -> bool)
    requires p.Agent() && Marker(step) && Decide(queries, p, s, prior, step, fits).Success?
    ensures var next := Decide(queries, p, s, prior, step, fits).value.next;
            next == Some(ModelProposal) || next == Some(SearchPolicy)
  {
    AgentDecisionFollows(queries, p, s, prior, step, fits);
  }

  lemma GraphPrepares(queries: string -> string, p: Program, s: Snapshot, fits: Proposal -> bool)
    requires p.Agent()
    ensures var rule := GraphRule(queries, p, s, fits);
            MarkersPrepare(rule, p, s) && ReadsPrepare(rule, queries, p, s) && MarkersLead(rule) && ProposalsKnowStatus(rule, p, s)
  {
    var rule := GraphRule(queries, p, s, fits);
    forall prior: seq<Step>, step: Step | rule(prior, step).Success? && !IsTool(step.kind)
      ensures rule(prior, step).value.next == Some(ModelProposal) ==> MarkerPrepares(p, s, prior, step)
      ensures step.kind.ModelProposal? && p.ReadsStatusPolicy() ==> MissingStatus(s, prior) == Success(None)
    {
      AcceptedModelPrepares(queries, p, s, prior, step, fits);
    }
    forall prior: seq<Step>, step: Step | rule(prior, step).Success? && rule(prior, step).value.next == Some(ModelProposal) && IsTool(step.kind)
      ensures ReadPrepares(queries, p, s, prior, step)
    {
      AcceptedReadPrepares(queries, p, s, prior, step, fits);
    }
    forall prior: seq<Step>, step: Step | rule(prior, step).Success? && Marker(step)
      ensures rule(prior, step).value.next == Some(ModelProposal) || rule(prior, step).value.next == Some(SearchPolicy)
    {
      AcceptedMarkerLeads(queries, p, s, prior, step, fits);
    }
  }

  lemma StatusUnchanged(s: Snapshot, prior: seq<Step>, step: Step)
    requires !IsTool(step.kind)
    ensures MissingStatus(s, prior + [step]) == MissingStatus(s, prior)
  {
    SourcesUnchanged(s, prior, step, true);
  }

  lemma MarkerReady(queries: string -> string, p: Program, s: Snapshot, steps: seq<Step>)
    requires steps != [] && Marker(steps[|steps| - 1]) && (|steps| >= 2 ==> !Marker(steps[|steps| - 2]))
    requires p.ReadsStatusPolicy() ==> MissingStatus(s, steps) == Success(None)
    ensures AdjudicationPredecessor(queries, p, s, steps).Pass?
  {
  }

  lemma StatusReady(queries: string -> string, p: Program, s: Snapshot, steps: seq<Step>)
    requires p.ReadsStatusPolicy() && |steps| >= 2 && Marker(steps[|steps| - 2]) && StatusSatisfied(queries, s, steps).Pass?
    ensures AdjudicationPredecessor(queries, p, s, steps).Pass?
  {
  }

  lemma SupplementReady(queries: string -> string, p: Program, s: Snapshot, steps: seq<Step>)
    requires p.Supplements() && |steps| >= 2 && steps[|steps| - 2].kind.ModelProposal? && steps[|steps| - 1].kind.SearchPolicy?
    requires steps[|steps| - 1].result.proposal.None? && !steps[|steps| - 1].result.correctionRequired
    requires PendingTool(queries, p, s, steps[..|steps| - 1], SearchPolicy).Success?
    requires SupplementSatisfied(s, steps, steps[|steps| - 2].result.content).Pass?
    requires p.ReadsStatusPolicy() ==> MissingStatus(s, steps) == Success(None)
    ensures AdjudicationPredecessor(queries, p, s, steps).Pass?
  {
    assert !Marker(steps[|steps| - 2]) && !Marker(steps[|steps| - 1]);
  }

  lemma LegalSnoc(rule: Rule, prior: seq<Step>, step: Step)
    requires Legal(rule, prior + [step])
    ensures Legal(rule, prior) && rule(prior, step).Success? && NextKind(rule, prior + [step]) == rule(prior, step).value.next
  {
    assert (prior + [step])[..|prior|] == prior;
  }

  lemma NoSecondMarker(rule: Rule, steps: seq<Step>)
    requires MarkersLead(rule) && |steps| >= 2 && Legal(rule, steps) && Marker(steps[|steps| - 1])
    ensures !Marker(steps[|steps| - 2])
  {
    LegalLast(rule, steps);
    LegalLast(rule, steps[..|steps| - 1]);
  }

  lemma ReadyAfterMarker(rule: Rule, queries: string -> string, p: Program, s: Snapshot, prior: seq<Step>, step: Step)
    requires MarkersPrepare(rule, p, s) && MarkersLead(rule) && Legal(rule, prior + [step]) && !IsTool(step.kind)
    requires NextKind(rule, prior + [step]) == Some(ModelProposal)
    ensures AdjudicationPredecessor(queries, p, s, prior + [step]).Pass?
  {
    var steps := prior + [step];
    LegalSnoc(rule, prior, step);
    assert MarkerPrepares(p, s, prior, step);
    if prior != [] {
      NoSecondMarker(rule, steps);
    }
    StatusUnchanged(s, prior, step);
    MarkerReady(queries, p, s, steps);
  }

  lemma ProposalKnewStatus(rule: Rule, p: Program, s: Snapshot, prior: seq<Step>, step: Step)
    requires ProposalsKnowStatus(rule, p, s) && p.ReadsStatusPolicy() && Legal(rule, prior + [step]) && step.kind.ModelProposal?
    ensures MissingStatus(s, prior + [step]) == Success(None)
  {
    LegalSnoc(rule, prior, step);
    StatusUnchanged(s, prior, step);
  }

  lemma PreparedReadReady(queries: string -> string, p: Program, s: Snapshot, prior: seq<Step>, step: Step)
    requires ReadPrepares(queries, p, s, prior, step)
    requires p.ReadsStatusPolicy() && !Marker(prior[|prior| - 1]) ==> MissingStatus(s, prior) == Success(None)
    ensures AdjudicationPredecessor(queries, p, s, prior + [step]).Pass?
  {
    var steps := prior + [step];
    assert steps[..|steps| - 1] == prior && steps[|steps| - 2] == prior[|prior| - 1];
    if p.ReadsStatusPolicy() && Marker(prior[|prior| - 1]) {
      StatusReady(queries, p, s, steps);
    } else {
      if p.ReadsStatusPolicy() {
        StatusStaysKnown(s, prior, step);
      }
      SupplementReady(queries, p, s, steps);
    }
  }

  lemma ReadyAfterRead(rule: Rule, queries: string -> string, p: Program, s: Snapshot, prior: seq<Step>, step: Step)
    requires ReadsPrepare(rule, queries, p, s) && ProposalsKnowStatus(rule, p, s) && Legal(rule, prior + [step]) && IsTool(step.kind)
    requires NextKind(rule, prior + [step]) == Some(ModelProposal)
    ensures AdjudicationPredecessor(queries, p, s, prior + [step]).Pass?
  {
    LegalSnoc(rule, prior, step);
    if p.ReadsStatusPolicy() && !Marker(prior[|prior| - 1]) {
      assert prior == prior[..|prior| - 1] + [prior[|prior| - 1]];
      ProposalKnewStatus(rule, p, s, prior[..|prior| - 1], prior[|prior| - 1]);
    }
    PreparedReadReady(queries, p, s, prior, step);
  }

  lemma ReadyAfter(rule: Rule, queries: string -> string, p: Program, s: Snapshot, prior: seq<Step>, step: Step)
    requires MarkersPrepare(rule, p, s) && ReadsPrepare(rule, queries, p, s) && MarkersLead(rule) && ProposalsKnowStatus(rule, p, s)
    requires Legal(rule, prior + [step]) && NextKind(rule, prior + [step]) == Some(ModelProposal)
    ensures AdjudicationPredecessor(queries, p, s, prior + [step]).Pass?
  {
    if IsTool(step.kind) {
      ReadyAfterRead(rule, queries, p, s, prior, step);
    } else {
      ReadyAfterMarker(rule, queries, p, s, prior, step);
    }
  }

  lemma ReadyWhenAwaited(rule: Rule, queries: string -> string, p: Program, s: Snapshot, steps: seq<Step>)
    requires MarkersPrepare(rule, p, s) && ReadsPrepare(rule, queries, p, s) && MarkersLead(rule) && ProposalsKnowStatus(rule, p, s)
    requires Legal(rule, steps) && NextKind(rule, steps) == Some(ModelProposal)
    ensures AdjudicationPredecessor(queries, p, s, steps).Pass?
  {
    var prior, step := steps[..|steps| - 1], steps[|steps| - 1];
    assert steps == prior + [step];
    ReadyAfter(rule, queries, p, s, prior, step);
  }

  /** A legal agent history that awaits a proposal has met every prerequisite of one. */
  lemma AwaitedAdjudicationIsReady(queries: string -> string, p: Program, s: Snapshot, steps: seq<Step>,
                                   fits: Proposal -> bool)
    requires p.Agent() && Legal(GraphRule(queries, p, s, fits), steps)
    requires NextKind(GraphRule(queries, p, s, fits), steps) == Some(ModelProposal)
    ensures AdjudicationPredecessor(queries, p, s, steps).Pass?
  {
    GraphPrepares(queries, p, s, fits);
    ReadyWhenAwaited(GraphRule(queries, p, s, fits), queries, p, s, steps);
  }

  // ---------- whatever compiles can be proposed and submitted ----------

  /** The kinds of step in which a program's model proposes. */
  predicate Proposes(p: Program, kind: StepKind) {
    if p.Fixed() then kind.ModelProposal? || (kind.ProtocolCorrection? && !p.Adjudicates())
    else if p.Adjudicates() then kind.ModelProposal?
    else p.Agent() && (kind.ModelDecision? || kind.ProtocolCorrection?)
  }

  function ProposalStep(kind: StepKind, call: string, proposal: Proposal): Step {
    Step(kind, StepResult("", call, [], NullContent, Some(proposal), false))
  }

  function SubmitStep(proposal: Proposal): Step {
    Step(SubmitProposal, StepResult("", "", [], NullContent, Some(proposal), false))
  }

  ghost predicate MayPropose(queries: string -> string, p: Program, s: Snapshot, prior: seq<Step>, kind: StepKind, call: string,
                             proposal: Proposal, fits: Proposal -> bool)
  {
    && Refusal(p, s, prior, ProposalStep(kind, call, proposal)).None? && Proposes(p, kind) && call != ""
    && Holds(p, s, prior, proposal, fits) && (p.Agent() && kind.ModelProposal? ==> AdjudicationPredecessor(queries, p, s, prior).Pass?)
  }

  /** The proposal is valid on this history and the validator accepts it there. */
  ghost predicate Holds(p: Program, s: Snapshot, prior: seq<Step>, proposal: Proposal, fits: Proposal -> bool) {
    ValidProposal(s, prior, Some(proposal)) && Accepted(s, Records(prior), Some(proposal), p.Agent(), fits)
  }

  ghost predicate MaySubmit(p: Program, s: Snapshot, prior: seq<Step>, kind: StepKind, call: string, proposal: Proposal, fits: Proposal -> bool) {
    && Refusal(p, s, prior, SubmitStep(proposal)).None? && Proposes(p, kind)
    && Proposed(prior, kind, call, proposal) && Holds(p, s, prior, proposal, fits)
  }

  predicate Proposed(prior: seq<Step>, kind: StepKind, call: string, proposal: Proposal) {
    prior != [] && prior[|prior| - 1] == ProposalStep(kind, call, proposal)
  }

  lemma AgentProposal(queries: string -> string, p: Program, s: Snapshot, prior: seq<Step>, kind: StepKind, call: string,
                      proposal: Proposal, fits: Proposal -> bool)
    requires p.Agent() && Proposes(p, kind) && call != "" && Holds(p, s, prior, proposal, fits)
    requires kind.ModelProposal? ==> AdjudicationPredecessor(queries, p, s, prior).Pass?
    ensures DecideAgent(queries, p, s, prior, ProposalStep(kind, call, proposal), fits) == Success(Decision(Some(SubmitProposal), Some(proposal)))
  {
  }

  lemma FixedProposal(queries: string -> string, p: Program, s: Snapshot, prior: seq<Step>, kind: StepKind, call: string,
                      proposal: Proposal, fits: Proposal -> bool)
    requires p.Fixed() && Proposes(p, kind) && call != "" && Holds(p, s, prior, proposal, fits)
    ensures DecideFixed(p, s, prior, ProposalStep(kind, call, proposal), fits) == Success(Decision(Some(SubmitProposal), Some(proposal)))
  {
  }

  lemma ModelDispatch(queries: string -> string, p: Program, s: Snapshot, prior: seq<Step>, step: Step, fits: Proposal -> bool, d: Decision)
    requires Refusal(p, s, prior, step) == None && !IsTool(step.kind) && !step.kind.ReadTicket?
    requires if p.Agent() then DecideAgent(queries, p, s, prior, step, fits) == Success(d) else DecideFixed(p, s, prior, step, fits) == Success(d)
    ensures Decide(queries, p, s, prior, step, fits) == Success(d)
  {
  }

  lemma ProposalDecided(queries: string -> string, p: Program, s: Snapshot, prior: seq<Step>, kind: StepKind, call: string,
                        proposal: Proposal, fits: Proposal -> bool)
    requires MayPropose(queries, p, s, prior, kind, call, proposal, fits)
    ensures Decide(queries, p, s, prior, ProposalStep(kind, call, proposal), fits) == Success(Decision(Some(SubmitProposal), Some(proposal)))
  {
    if p.Agent() {
      AgentProposal(queries, p, s, prior, kind, call, proposal, fits);
    } else {
      FixedProposal(queries, p, s, prior, kind, call, proposal, fits);
    }
    ModelDispatch(queries, p, s, prior, ProposalStep(kind, call, proposal), fits, Decision(Some(SubmitProposal), Some(proposal)));
  }

  lemma SubmissionDecided(queries: string -> string, p: Program, s: Snapshot, prior: seq<Step>, kind: StepKind, call: string,
                          proposal: Proposal, fits: Proposal -> bool)
    requires MaySubmit(p, s, prior, kind, call, proposal, fits)
    ensures Decide(queries, p, s, prior, SubmitStep(proposal), fits) == Success(Decision(None, Some(proposal)))
  {
    if p.Agent() {
      AgentSubmission(queries, p, s, prior, kind, call, proposal, fits);
    } else {
      FixedSubmission(p, s, prior, kind, call, proposal, fits);
    }
    ModelDispatch(queries, p, s, prior, SubmitStep(proposal), fits, Decision(None, Some(proposal)));
  }

  lemma AgentSubmission(queries: string -> string, p: Program, s: Snapshot, prior: seq<Step>, kind: StepKind, call: string,
                        proposal: Proposal, fits: Proposal -> bool)
    requires p.Agent() && Proposes(p, kind) && Proposed(prior, kind, call, proposal) && Holds(p, s, prior, proposal, fits)
    ensures DecideAgent(queries, p, s, prior, SubmitStep(proposal), fits) == Success(Decision(None, Some(proposal)))
  {
  }

  lemma FixedSubmission(p: Program, s: Snapshot, prior: seq<Step>, kind: StepKind, call: string, proposal: Proposal, fits: Proposal -> bool)
    requires p.Fixed() && Proposes(p, kind) && Proposed(prior, kind, call, proposal) && Holds(p, s, prior, proposal, fits)
    ensures DecideFixed(p, s, prior, SubmitStep(proposal), fits) == Success(Decision(None, Some(proposal)))
  {
  }

  ghost predicate AcceptsProposals(rule: Rule, queries: string -> string, p: Program, s: Snapshot, fits: Proposal -> bool) {
    forall prior, kind, call, proposal :: MayPropose(queries, p, s, prior, kind, call, proposal, fits) ==>
      rule(prior, ProposalStep(kind, call, proposal)) == Success(Decision(Some(SubmitProposal), Some(proposal)))
  }

  ghost predicate AcceptsSubmissions(rule: Rule, p: Program, s: Snapshot, fits: Proposal -> bool) {
    forall prior, kind, call, proposal :: MaySubmit(p, s, prior, kind, call, proposal, fits) ==>
      rule(prior, SubmitStep(proposal)) == Success(Decision(None, Some(proposal)))
  }

  lemma GraphAcceptsProposals(queries: string -> string, p: Program, s: Snapshot, fits: Proposal -> bool)
    ensures AcceptsProposals(GraphRule(queries, p, s, fits), queries, p, s, fits)
  {
    var rule := GraphRule(queries, p, s, fits);
    forall prior, kind, call, proposal | MayPropose(queries, p, s, prior, kind, call, proposal, fits)
      ensures rule(prior, ProposalStep(kind, call, proposal)) == Success(Decision(Some(SubmitProposal), Some(proposal)))
    {
      ProposalDecided(queries, p, s, prior, kind, call, proposal, fits);
    }
  }

  lemma GraphAcceptsSubmissions(queries: string -> string, p: Program, s: Snapshot, fits: Proposal -> bool)
    ensures AcceptsSubmissions(GraphRule(queries, p, s, fits), p, s, fits)
  {
    var rule := GraphRule(queries, p, s, fits);
    forall prior, kind, call, proposal | MaySubmit(p, s, prior, kind, call, proposal, fits)
      ensures rule(prior, SubmitStep(proposal)) == Success(Decision(None, Some(proposal)))
    {
      SubmissionDecided(queries, p, s, prior, kind, call, proposal, fits);
    }
  }

  /** Everything used of the graph's rule. */
  ghost predicate Graphlike(rule: Rule, queries: string -> string, p: Program, s: Snapshot, fits: Proposal -> bool) {
    && ChecksSteps(rule, p, s) && AcceptsProposals(rule, queries, p, s, fits) && AcceptsSubmissions(rule, p, s, fits)
    && (p.Agent() ==> MarkersPrepare(rule, p, s) && ReadsPrepare(rule, queries, p, s) && MarkersLead(rule) && ProposalsKnowStatus(rule, p, s))
  }

  lemma GraphIsGraphlike(queries: string -> string, p: Program, s: Snapshot, fits: Proposal -> bool)
    ensures Graphlike(GraphRule(queries, p, s, fits), queries, p, s, fits)
  {
    GraphChecksSteps(queries, p, s, fits);
    GraphAcceptsProposals(queries, p, s, fits);
    GraphAcceptsSubmissions(queries, p, s, fits);
    if p.Agent() {
      GraphPrepares(queries, p, s, fits);
    }
  }

  lemma AwaitedMayPropose(rule: Rule, queries: string -> string, p: Program, s: Snapshot, steps: seq<Step>,
                          kind: StepKind, call: string, model: Model, fits: Proposal -> bool, proposal: Proposal)
    requires Graphlike(rule, queries, p, s, fits) && Proposes(p, kind) && ValidUUID(call) && steps != []
    requires Legal(rule, steps) && NextKind(rule, steps) == Some(kind)
    requires Compile(s, Records(steps), model, p.Agent(), fits) == Success(proposal)
    ensures MayPropose(queries, p, s, steps, kind, call, proposal, fits)
  {
    CompiledIsValid(s, steps, model, p.Agent(), fits);
    AwaitedNotRefused(rule, p, s, steps, ProposalStep(kind, call, proposal));
    if p.Agent() && kind.ModelProposal? {
      ReadyWhenAwaited(rule, queries, p, s, steps);
    }
  }

  // In the two lemmas marked below the histories are not taken apart, so automatic induction over them is switched off.

  lemma {:induction false} ProposedMaySubmit(rule: Rule, queries: string -> string, p: Program, s: Snapshot, steps: seq<Step>,
                                             kind: StepKind, call: string, model: Model, fits: Proposal -> bool, proposal: Proposal)
    requires Graphlike(rule, queries, p, s, fits) && Proposes(p, kind)
    requires steps != [] && steps[|steps| - 1] == ProposalStep(kind, call, proposal)
    requires Legal(rule, steps) && NextKind(rule, steps) == Some(SubmitProposal)
    requires Compile(s, Records(steps), model, p.Agent(), fits) == Success(proposal)
    ensures MaySubmit(p, s, steps, kind, call, proposal, fits)
  {
    CompiledIsValid(s, steps, model, p.Agent(), fits);
    AwaitedNotRefused(rule, p, s, steps, SubmitStep(proposal));
  }

  function Closing(kind: StepKind, call: string, proposal: Proposal): seq<Step> {
    [ProposalStep(kind, call, proposal), SubmitStep(proposal)]
  }

  lemma CompileUnchanged(s: Snapshot, prior: seq<Step>, step: Step, model: Model, repeatedSearch: bool, fits: Proposal -> bool)
    requires !IsTool(step.kind)
    ensures Compile(s, Records(prior + [step]), model, repeatedSearch, fits) == Compile(s, Records(prior), model, repeatedSearch, fits)
  {
    SourcesUnchanged(s, prior, step, repeatedSearch);
  }

  lemma RuleProposes(rule: Rule, queries: string -> string, p: Program, s: Snapshot, steps: seq<Step>, kind: StepKind,
                     call: string, model: Model, fits: Proposal -> bool, proposal: Proposal)
    requires Graphlike(rule, queries, p, s, fits) && Proposes(p, kind) && ValidUUID(call)
    requires Legal(rule, steps) && NextKind(rule, steps) == Some(kind)
    requires Compile(s, Records(steps), model, p.Agent(), fits) == Success(proposal)
    ensures var next := steps + [ProposalStep(kind, call, proposal)];
            Legal(rule, next) && NextKind(rule, next) == Some(SubmitProposal)
  {
    AwaitedMayPropose(rule, queries, p, s, steps, kind, call, model, fits, proposal);
    LegalExtend(rule, steps, ProposalStep(kind, call, proposal), Some(SubmitProposal));
  }

  lemma {:induction false} RuleSubmits(rule: Rule, queries: string -> string, p: Program, s: Snapshot, steps: seq<Step>, kind: StepKind,
                                       call: string, model: Model, fits: Proposal -> bool, proposal: Proposal)
    requires Graphlike(rule, queries, p, s, fits) && Proposes(p, kind) && steps != [] && steps[|steps| - 1] == ProposalStep(kind, call, proposal)
    requires Legal(rule, steps) && NextKind(rule, steps) == Some(SubmitProposal)
    requires Compile(s, Records(steps), model, p.Agent(), fits) == Success(proposal)
    ensures Legal(rule, steps + [SubmitStep(proposal)]) && NextKind(rule, steps + [SubmitStep(proposal)]).None?
  {
    ProposedMaySubmit(rule, queries, p, s, steps, kind, call, model, fits, proposal);
    LegalExtend(rule, steps, SubmitStep(proposal), None);
  }

  lemma StillCompiles(p: Program, s: Snapshot, prior: seq<Step>, steps: seq<Step>, kind: StepKind, call: string,
                      model: Model, fits: Proposal -> bool, proposal: Proposal)
    requires Proposes(p, kind) && steps == prior + [ProposalStep(kind, call, proposal)]
    requires Compile(s, Records(prior), model, p.Agent(), fits) == Success(proposal)
    ensures steps != [] && steps[|steps| - 1] == ProposalStep(kind, call, proposal)
    ensures Compile(s, Records(steps), model, p.Agent(), fits) == Success(proposal)
  {
    CompileUnchanged(s, prior, ProposalStep(kind, call, proposal), model, p.Agent(), fits);
  }

  lemma ClosingShape(steps: seq<Step>, kind: StepKind, call: string, proposal: Proposal)
    ensures steps + Closing(kind, call, proposal) == steps + [ProposalStep(kind, call, proposal)] + [SubmitStep(proposal)]
  {
  }

  lemma RuleCloses(rule: Rule, queries: string -> string, p: Program, s: Snapshot, steps: seq<Step>, kind: StepKind,
                   call: string, model: Model, fits: Proposal -> bool, proposal: Proposal)
    requires Graphlike(rule, queries, p, s, fits) && Proposes(p, kind) && ValidUUID(call)
    requires Legal(rule, steps) && NextKind(rule, steps) == Some(kind)
    requires Compile(s, Records(steps), model, p.Agent(), fits) == Success(proposal)
    ensures var closed := steps + Closing(kind, call, proposal);
            Legal(rule, closed) && NextKind(rule, closed).None?
  {
    var next := steps + [ProposalStep(kind, call, proposal)];
    RuleProposes(rule, queries, p, s, steps, kind, call, model, fits, proposal);
    StillCompiles(p, s, steps, next, kind, call, model, fits, proposal);
    RuleSubmits(rule, queries, p, s, next, kind, call, model, fits, proposal);
    ClosingShape(steps, kind, call, proposal);
  }

  /**
    A support run that awaits its model's proposal can always be closed with whatever compiles on its
    history: the proposal is committed, submitting it is committed, and nothing comes after.
  */
  lemma AwaitedProposalCloses(queries: string -> string, p: Program, s: Snapshot, steps: seq<Step>, kind: StepKind,
                              call: string, model: Model, fits: Proposal -> bool)
    requires Proposes(p, kind) && ValidUUID(call)
    requires Legal(GraphRule(queries, p, s, fits), steps) && NextKind(GraphRule(queries, p, s, fits), steps) == Some(kind)
    requires Compile(s, Records(steps), model, p.Agent(), fits).Success?
    ensures var closed := steps + Closing(kind, call, Compile(s, Records(steps), model, p.Agent(), fits).value);
            Legal(GraphRule(queries, p, s, fits), closed) && NextKind(GraphRule(queries, p, s, fits), closed).None?
  {
    GraphIsGraphlike(queries, p, s, fits);
    RuleCloses(GraphRule(queries, p, s, fits), queries, p, s, steps, kind, call, model, fits,
               Compile(s, Records(steps), model, p.Agent(), fits).value);
  }
}
