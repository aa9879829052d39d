/**
  What a step must say to be accepted (internal/run/checkpoint.go, support_agent.go, policy_supplement.go,
  status_policy.go): who did it, what may be asked for, and that what was asked for was read.
*/
module CommitDecisions {
  import opened Wrappers
  import opened Identity
  import opened SupportSources
  import opened SupportProposal
  import opened CommitGraph
  import opened CommitLanguage
  import opened CommitClosing

  // ---------- who did it ----------

  /** Reads name their tool invocation and physical call, model steps their physical call, and the server's own two steps neither. */
  predicate Attributed(step: Step) {
    var r := step.result;
    if IsTool(step.kind) then ValidUUID(r.toolInvocation) && ValidUUID(r.physicalCall)
    else if IsModelStep(step.kind) then r.toolInvocation == "" && ValidUUID(r.physicalCall)
    else r.toolInvocation == "" && r.physicalCall == ""
  }

  /** Only reads, the ticket included, return evidence, and only a model may need correction. */
  predicate Sober(s: Snapshot, step: Step) {
    var r := step.result;
    && (step.kind.ReadTicket? ==> r.refs == [EvidenceRef(s, "ticket")] && r.content == TicketContent(s.ticket))
    && (!step.kind.ReadTicket? && !IsTool(step.kind) ==> r.refs == [])
    && (step.kind.ReadTicket? || IsTool(step.kind) ==> r.proposal.None?)
    && (r.correctionRequired ==> IsModelStep(step.kind) && r.proposal.None?)
  }

  lemma EnvelopeIds(p: Program, s: Snapshot, prior: seq<Step>, step: Step)
    requires Refusal(p, s, prior, step).None?
    ensures step.result.toolInvocation == "" || ValidUUID(step.result.toolInvocation)
    ensures step.result.physicalCall == "" || ValidUUID(step.result.physicalCall)
  {
  }

  lemma AgentAttributed(queries: string -> string, p: Program, s: Snapshot, prior: seq<Step>, step: Step, fits: Proposal -> bool)
    requires DecideAgent(queries, p, s, prior, step, fits).Success?
    ensures step.result.toolInvocation == "" && step.result.refs == []
    ensures step.kind == SubmitProposal || IsModelStep(step.kind)
    ensures if step.kind == SubmitProposal then step.result.physicalCall == "" && !step.result.correctionRequired else step.result.physicalCall != ""
    ensures step.result.correctionRequired ==> step.result.proposal.None?
  {
  }

  lemma FixedAttributed(p: Program, s: Snapshot, prior: seq<Step>, step: Step, fits: Proposal -> bool)
    requires DecideFixed(p, s, prior, step, fits).Success?
    ensures step.result.toolInvocation == "" && step.result.refs == []
    ensures step.kind == SubmitProposal || IsModelStep(step.kind)
    ensures if step.kind == SubmitProposal then step.result.physicalCall == "" && !step.result.correctionRequired else step.result.physicalCall != ""
    ensures step.result.correctionRequired ==> step.result.proposal.None?
  {
  }

  lemma DecidedAttributed(queries: string -> string, p: Program, s: Snapshot, prior: seq<Step>, step: Step, fits: Proposal -> bool)
    requires Decide(queries, p, s, prior, step, fits).Success?
    ensures Attributed(step) && Sober(s, step)
  {
    EnvelopeIds(p, s, prior, step);
    if !step.kind.ReadTicket? && !IsTool(step.kind) {
      if p.Agent() {
        AgentAttributed(queries, p, s, prior, step, fits);
      } else {
        FixedAttributed(p, s, prior, step, fits);
      }
    }
  }

  /** Every step of a legal history can be traced to who did it, and returns evidence only if it read some. */
  lemma HistoriesAreAttributed(queries: string -> string, p: Program, s: Snapshot, steps: seq<Step>, fits: Proposal -> bool, i: nat)
    requires Legal(GraphRule(queries, p, s, fits), steps) && i < |steps|
    ensures Attributed(steps[i]) && Sober(s, steps[i])
  {
    LegalAt(GraphRule(queries, p, s, fits), steps, i);
    DecidedAttributed(queries, p, s, steps[..i], steps[i], fits);
  }

  // ---------- what may be proposed ----------

  /** The ticket's reference, or one that a read of this history returned. */
  ghost predicate ReadBefore(s: Snapshot, prior: seq<Step>, ref: string) {
    || ref == EvidenceRef(s, "ticket")
    || exists i :: 0 <= i < |prior| && (prior[i].kind.ReadTicket? || IsTool(prior[i].kind)) && ref in prior[i].result.refs
  }

  /** A proposal rests on one to thirty-two references, each read before and named once, and proposes an action exactly if it proposes. */
  ghost predicate WellFounded(s: Snapshot, prior: seq<Step>, p: Proposal) {
    && 1 <= |p.evidenceRefs| <= 32 && DistinctSeq(p.evidenceRefs) && (forall ref :: ref in p.evidenceRefs ==> ReadBefore(s, prior, ref))
    && 1 <= |p.summary| <= 8192
    && match DecisionOf(p)
       case "no_action" => ActionOf(p) == ""
       case "proposal" => ActionOf(p) in {"record_conclusion", "request_information", "escalate"}
       case _ => false
  }

  lemma ValidIsWellFounded(s: Snapshot, prior: seq<Step>, p: Proposal)
    requires ValidProposal(s, prior, Some(p))
    ensures WellFounded(s, prior, p)
  {
    forall ref | ref in p.evidenceRefs ensures ReadBefore(s, prior, ref) {
      assert Allowed(s, prior, ref);
    }
  }

  lemma AgentProposalValid(queries: string -> string, p: Program, s: Snapshot, prior: seq<Step>, step: Step, fits: Proposal -> bool)
    requires DecideAgent(queries, p, s, prior, step, fits).Success? && step.result.proposal.Some?
    ensures ValidProposal(s, prior, step.result.proposal)
  {
  }

  lemma FixedProposalValid(p: Program, s: Snapshot, prior: seq<Step>, step: Step, fits: Proposal -> bool)
    requires DecideFixed(p, s, prior, step, fits).Success? && step.result.proposal.Some?
    ensures ValidProposal(s, prior, step.result.proposal)
  {
  }

  /** Under every program, an accepted step's proposal rests on what this history read before it. */
  lemma ProposalsRestOnReads(queries: string -> string, p: Program, s: Snapshot, prior: seq<Step>, step: Step, fits: Proposal -> bool)
    requires Decide(queries, p, s, prior, step, fits).Success? && step.result.proposal.Some?
    ensures WellFounded(s, prior, step.result.proposal.value)
  {
    DecidedAttributed(queries, p, s, prior, step, fits);
    if p.Agent() {
      AgentProposalValid(queries, p, s, prior, step, fits);
    } else {
      FixedProposalValid(p, s, prior, step, fits);
    }
    ValidIsWellFounded(s, prior, step.result.proposal.value);
  }

  // ---------- what an agent may ask for ----------

  lemma {:induction false} TrimLeftEnds(t: string)
    ensures TrimLeft(t) != "" ==> !Blank(TrimLeft(t)[0])
  {
    if t != "" && Blank(t[0]) { TrimLeftEnds(t[1..]); }
  }

  lemma {:induction false} TrimRightEnds(t: string)
    ensures TrimRight(t) != "" ==> !Blank(TrimRight(t)[|TrimRight(t)| - 1])
    ensures TrimRight(t) <= t
  {
    if t != "" && Blank(t[|t| - 1]) { TrimRightEnds(t[..|t| - 1]); }
  }

  /** A search for a trimmed text of one to 512 bytes, or a read of the ticket's own order or its delivery. */
  predicate Askable(s: Snapshot, c: Content) {
    && c.ToolDecision?
    && match c.name
       case SearchPolicy =>
         && c.arguments.Query? && 1 <= |c.arguments.text| <= 512
         && !Blank(c.arguments.text[0]) && !Blank(c.arguments.text[|c.arguments.text| - 1])
       case GetOrder => c.arguments == OrderId(s.ticket.orderId)
       case GetDelivery => c.arguments == OrderId(s.ticket.orderId)
       case _ => false
  }

  lemma CanonicalIsAskable(s: Snapshot, c: Content)
    requires AgentTool(s, c) == Some(c)
    ensures Askable(s, c)
  {
    if c.name == SearchPolicy {
      TrimLeftEnds(c.arguments.text);
      TrimRightEnds(TrimLeft(c.arguments.text));
    }
  }

  lemma AcceptedToolIsCanonical(queries: string -> string, p: Program, s: Snapshot, prior: seq<Step>, step: Step, fits: Proposal -> bool)
    requires p.Agent() && DecideAgent(queries, p, s, prior, step, fits).Success? && step.result.content.ToolDecision?
    ensures AgentTool(s, step.result.content) == Some(step.result.content)
    ensures DecideAgent(queries, p, s, prior, step, fits).value.next == Some(step.result.content.name)
  {
  }

  lemma AgentDecides(queries: string -> string, p: Program, s: Snapshot, prior: seq<Step>, step: Step, fits: Proposal -> bool)
    requires p.Agent() && IsModelStep(step.kind)
    requires Decide(queries, p, s, prior, step, fits).Success?
    ensures DecideAgent(queries, p, s, prior, step, fits) == Decide(queries, p, s, prior, step, fits)
  {
  }

  /** What a model may ask for, in exactly the form it is accepted, and that it is what happens next. */
  lemma AskedIsAskable(queries: string -> string, p: Program, s: Snapshot, prior: seq<Step>, step: Step, fits: Proposal -> bool)
    requires p.Agent() && IsModelStep(step.kind) && step.result.content.ToolDecision?
    requires Decide(queries, p, s, prior, step, fits).Success?
    ensures Askable(s, step.result.content)
    ensures Decide(queries, p, s, prior, step, fits).value.next == Some(step.result.content.name)
  {
    AgentDecides(queries, p, s, prior, step, fits);
    AcceptedToolIsCanonical(queries, p, s, prior, step, fits);
    CanonicalIsAskable(s, step.result.content);
  }

  // ---------- supplements bring something new ----------

  /** The paragraphs a supplement names are of its topic, each once, in order, and none of them known before. */
  predicate News(known: map<string, Source>, c: Content) {
    && c.Supplement? && c.aliases != []
    && (forall i :: 0 <= i < |c.aliases| ==> c.aliases[i] in TopicAliases(c.topic) && c.aliases[i] !in known)
    && (forall i, j :: 0 <= i < j < |c.aliases| ==> Before(c.aliases[i], c.aliases[j]))
  }

  lemma {:induction false} BeforeTransitive(a: string, b: string, c: string)
    requires Before(a, b) && Before(b, c)
    ensures Before(a, c)
  {
    if a != "" && a[0] == b[0] && b[0] == c[0] { BeforeTransitive(a[1..], b[1..], c[1..]); }
  }

  lemma {:induction false} AscendingOrdered(list: seq<string>, i: nat, j: nat)
    requires i < j < |list| && forall k :: 0 < k < |list| ==> Before(list[k - 1], list[k])
    ensures Before(list[i], list[j])
  {
    if j > i + 1 {
      AscendingOrdered(list, i, j - 1);
      BeforeTransitive(list[i], list[j - 1], list[j]);
    }
  }

  lemma CheckedIsNews(queries: string -> string, s: Snapshot, prior: seq<Step>, c: Content)
    requires CheckSupplement(queries, s, prior, c).Pass?
    ensures SourcesAfter(s, Records(prior), true).Success? && News(SourcesAfter(s, Records(prior), true).value.aliases, c)
  {
    forall i, j | 0 <= i < j < |c.aliases| ensures Before(c.aliases[i], c.aliases[j]) {
      AscendingOrdered(c.aliases, i, j);
    }
  }

  lemma AcceptedSupplementIsChecked(queries: string -> string, p: Program, s: Snapshot, prior: seq<Step>, step: Step, fits: Proposal -> bool)
    requires p.Agent() && DecideAgent(queries, p, s, prior, step, fits).Success?
    requires step.kind == ModelProposal && !step.result.content.NullContent?
    ensures CheckSupplement(queries, s, prior, step.result.content).Pass?
    ensures DecideAgent(queries, p, s, prior, step, fits).value.next == Some(SearchPolicy)
  {
  }

  /** A model that is to propose may ask for a supplement instead, and then names only paragraphs nobody has read yet. */
  lemma SupplementsAskForNews(queries: string -> string, p: Program, s: Snapshot, prior: seq<Step>, step: Step, fits: Proposal -> bool)
    requires p.Agent() && step.kind == ModelProposal && !step.result.content.NullContent?
    requires Decide(queries, p, s, prior, step, fits).Success?
    ensures SourcesAfter(s, Records(prior), true).Success?
    ensures News(SourcesAfter(s, Records(prior), true).value.aliases, step.result.content)
    ensures Decide(queries, p, s, prior, step, fits).value.next == Some(SearchPolicy)
  {
    AgentDecides(queries, p, s, prior, step, fits);
    AcceptedSupplementIsChecked(queries, p, s, prior, step, fits);
    CheckedIsNews(queries, s, prior, step.result.content);
  }

  /** The read it leads to is accepted only if it returned every paragraph that was asked for. */
  lemma SupplementsAreMet(queries: string -> string, p: Program, s: Snapshot, prior: seq<Step>, step: Step, fits: Proposal -> bool)
    requires p.Supplements() && prior != [] && prior[|prior| - 1].kind == ModelProposal && IsTool(step.kind)
    requires Decide(queries, p, s, prior, step, fits).Success?
    ensures var asked := prior[|prior| - 1].result.content;
            && asked.Supplement? && SourcesAfter(s, Records(prior + [step]), true).Success?
            && forall i :: 0 <= i < |asked.aliases| ==> asked.aliases[i] in SourcesAfter(s, Records(prior + [step]), true).value.aliases
  {
    assert AgentToolNext(queries, p, s, prior, step).Success?;
  }

  // ---------- the status paragraph ----------

  /** The paragraph that says how a ticket in a special status is treated. */
  predicate StatusKnown(status: string, known: map<string, Source>) {
    (status == "informational_only" ==> "P08.1" in known) && (status == "escalated" ==> "P08.2" in known)
  }

  lemma NothingMissing(s: Snapshot, steps: seq<Step>)
    requires MissingStatus(s, steps) == Success(None)
    requires SourcesAfter(s, Records(steps), true).Success?
    ensures StatusKnown(s.ticket.status, SourcesAfter(s, Records(steps), true).value.aliases)
  {
  }

  lemma ReadyKnowsStatus(queries: string -> string, p: Program, s: Snapshot, steps: seq<Step>)
    requires p.ReadsStatusPolicy() && AdjudicationPredecessor(queries, p, s, steps).Pass?
    ensures MissingStatus(s, steps) == Success(None)
  {
  }

  /** Under the programs that read it, nothing is proposed about a ticket in such a status before its paragraph was read. */
  lemma StatusIsReadFirst(queries: string -> string, p: Program, s: Snapshot, steps: seq<Step>, fits: Proposal -> bool)
    requires p.ReadsStatusPolicy() && Legal(GraphRule(queries, p, s, fits), steps)
    requires NextKind(GraphRule(queries, p, s, fits), steps) == Some(ModelProposal) && SourcesAfter(s, Records(steps), true).Success?
    ensures StatusKnown(s.ticket.status, SourcesAfter(s, Records(steps), true).value.aliases)
  {
    AwaitedAdjudicationIsReady(queries, p, s, steps, fits);
    ReadyKnowsStatus(queries, p, s, steps);
    NothingMissing(s, steps);
  }
}
