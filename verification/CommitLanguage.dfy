/**
  The histories the graph allows. A history is legal when every step's kind is the one the
  previous decision named and its own decision is accepted; `Rule` is any such decision.
*/
module CommitLanguage {
  import opened Wrappers
  import opened Identity
  import opened SupportSources
  import opened SupportProposal
  import opened CommitGraph

  type Rule = (seq<Step>, Step) -> Result<Decision, GraphError>

  ghost function GraphRule(queries: string -> string, program: Program, s: Snapshot, fits: Proposal -> bool): Rule {
    (prior: seq<Step>, step: Step) => Decide(queries, program, s, prior, step, fits)
  }

  /** What the history allows next; None once a decision has closed it. */
  ghost function NextKind(rule: Rule, steps: seq<Step>): Option<StepKind> {
    if steps == [] then Some(ReadTicket)
    else
      var d := rule(steps[..|steps| - 1], steps[|steps| - 1]);
      if d.Success? then d.value.next else None
  }

  ghost predicate Legal(rule: Rule, steps: seq<Step>) {
    steps == [] ||
    (&& Legal(rule, steps[..|steps| - 1])
     && NextKind(rule, steps[..|steps| - 1]) == Some(steps[|steps| - 1].kind)
     && rule(steps[..|steps| - 1], steps[|steps| - 1]).Success?)
  }

  function Kinds(steps: seq<Step>): (kinds: seq<StepKind>)
    ensures |kinds| == |steps|
  {
    seq(|steps|, i requires 0 <= i < |steps| => steps[i].kind)
  }

  lemma {:induction false} LegalAt(rule: Rule, steps: seq<Step>, i: nat)
    requires Legal(rule, steps) && i < |steps|
    ensures Legal(rule, steps[..i]) && NextKind(rule, steps[..i]) == Some(steps[i].kind) && rule(steps[..i], steps[i]).Success?
  {
    var n := |steps| - 1;
    if i < n {
      LegalAt(rule, steps[..n], i);
      assert steps[..n][..i] == steps[..i];
    }
  }

  // ---------- the language of the fixed programs ----------

  function Opening(p: Program): seq<StepKind> {
    if p.ReadsBundle() then [ReadTicket, ReadPolicyBundle] else [ReadTicket]
  }

  function Reads(p: Program, delivery: bool): seq<StepKind> {
    Opening(p) + [GetOrder] + (if delivery then [GetDelivery] else []) + (if p.ReadsBundle() then [] else [SearchPolicy])
  }

  /** The one word of the registered graph, for a history with or without a delivery read and with or without a correction. */
  function FixedWord(p: Program, delivery: bool, correction: bool): seq<StepKind> {
    Reads(p, delivery) + [ModelProposal] + (if correction then [ProtocolCorrection] else []) + [SubmitProposal]
  }

  /** That word up to and including a kind. */
  function UpTo(p: Program, delivery: bool, correction: bool, kind: StepKind): seq<StepKind> {
    match kind
    case ReadTicket => [ReadTicket]
    case ReadPolicyBundle => [ReadTicket, ReadPolicyBundle]
    case GetOrder => Opening(p) + [GetOrder]
    case GetDelivery => Opening(p) + [GetOrder, GetDelivery]
    case SearchPolicy => Reads(p, delivery)
    case ModelProposal => Reads(p, delivery) + [ModelProposal]
    case ProtocolCorrection => Reads(p, delivery) + [ModelProposal, ProtocolCorrection]
    case _ => FixedWord(p, delivery, correction)
  }

  predicate OnPath(p: Program, kind: StepKind) {
    kind.ReadTicket? || kind.GetOrder? || kind.GetDelivery? || kind.ModelProposal? || kind.SubmitProposal?
    || kind == (if p.ReadsBundle() then ReadPolicyBundle else SearchPolicy)
    || (kind == ProtocolCorrection && !p.Adjudicates())
  }

  predicate OrderMissing(p: Program, r: StepResult) {
    !p.Bounded? && r.content.Evidence? && r.content.missing == Some(true)
  }

  predicate FixedFollows(p: Program, kind: StepKind, missing: bool, next: Option<StepKind>) {
    match kind
    case ReadTicket => next == Some(if p.ReadsBundle() then ReadPolicyBundle else GetOrder)
    case ReadPolicyBundle => next == Some(GetOrder)
    case GetOrder =>
      next == Some(if !missing then GetDelivery else if p.ReadsBundle() then ModelProposal else SearchPolicy)
    case GetDelivery => next == Some(if p.ReadsBundle() then ModelProposal else SearchPolicy)
    case SearchPolicy => next == Some(ModelProposal)
    case ModelProposal => next == Some(SubmitProposal) || (!p.Adjudicates() && next == Some(ProtocolCorrection))
    case ProtocolCorrection => next == Some(SubmitProposal)
    case _ => next == None
  }

  lemma FixedDecisionFollows(queries: string -> string, p: Program, s: Snapshot, prior: seq<Step>, step: Step, fits: Proposal -> bool)
    requires !p.Agent() && OnPath(p, step.kind) && Decide(queries, p, s, prior, step, fits).Success?
    ensures FixedFollows(p, step.kind, OrderMissing(p, step.result), Decide(queries, p, s, prior, step, fits).value.next)
  {
  }

  ghost predicate InFixedLanguage(p: Program, kinds: seq<StepKind>, next: Option<StepKind>) {
    exists delivery, correction :: FixedRun(p, kinds, next, delivery, correction)
  }

  /** A prefix of the word that stops before `next`, or the whole word; from submission on a correction counts. */
  predicate FixedRun(p: Program, kinds: seq<StepKind>, next: Option<StepKind>, delivery: bool, correction: bool) {
    && (if next.Some? then OnPath(p, next.value) && kinds + [next.value] == UpTo(p, delivery, correction, next.value)
        else kinds == FixedWord(p, delivery, correction))
    && (correction && (next.None? || next.value.SubmitProposal?) ==> !p.Adjudicates())
  }

  lemma ReadsExtend(p: Program, kind: StepKind, next: StepKind, delivery: bool, correction: bool)
    returns (delivery': bool)
    requires kind.ReadTicket? || IsTool(kind)
    requires OnPath(p, kind) && FixedFollows(p, kind, !next.GetDelivery?, Some(next))
    ensures OnPath(p, next) && UpTo(p, delivery, correction, kind) + [next] == UpTo(p, delivery', correction, next)
  {
    delivery' := if kind.GetOrder? then next.GetDelivery? else if kind.GetDelivery? then true else delivery;
  }

  lemma ModelsExtend(p: Program, kind: StepKind, next: StepKind, delivery: bool)
    requires kind.ModelProposal? || kind.ProtocolCorrection?
    requires OnPath(p, kind) && FixedFollows(p, kind, false, Some(next))
    ensures OnPath(p, next)
    ensures forall correction ::
              UpTo(p, delivery, correction, kind) + [next] == UpTo(p, delivery, kind.ProtocolCorrection?, next)
  {
  }

  lemma FixedRunStep(p: Program, kinds: seq<StepKind>, kind: StepKind, missing: bool, next: Option<StepKind>, delivery: bool,
                     correction: bool)
    returns (delivery': bool, correction': bool)
    requires FixedRun(p, kinds, Some(kind), delivery, correction) && FixedFollows(p, kind, missing, next)
    ensures FixedRun(p, kinds + [kind], next, delivery', correction')
  {
    delivery', correction' := delivery, correction;
    if kind.ReadTicket? || IsTool(kind) {
      delivery' := ReadsExtend(p, kind, next.value, delivery, correction);
    } else if !kind.SubmitProposal? {
      ModelsExtend(p, kind, next.value, delivery);
      correction' := kind.ProtocolCorrection?;
    }
  }

  /** Under every fixed program a legal history spells a prefix of the registered word, and all of it once it is closed. */
  lemma {:induction false} FixedRunExists(rule: Rule, p: Program, steps: seq<Step>) returns (delivery: bool, correction: bool)
    requires FollowsGraph(rule, p) && Legal(rule, steps)
    ensures FixedRun(p, Kinds(steps), NextKind(rule, steps), delivery, correction)
  {
    if steps == [] {
      delivery, correction := false, false;
    } else {
      var n := |steps| - 1;
      delivery, correction := FixedRunExists(rule, p, steps[..n]);
      assert Kinds(steps) == Kinds(steps[..n]) + [steps[n].kind];
      delivery, correction := FixedRunStep(p, Kinds(steps[..n]), steps[n].kind, OrderMissing(p, steps[n].result), NextKind(rule, steps),
                                           delivery, correction);
    }
  }

  ghost predicate FollowsGraph(rule: Rule, p: Program) {
    forall prior: seq<Step>, step: Step :: OnPath(p, step.kind) && rule(prior, step).Success? ==>
      FixedFollows(p, step.kind, OrderMissing(p, step.result), rule(prior, step).value.next)
  }

  lemma FixedGraphFollows(queries: string -> string, p: Program, s: Snapshot, fits: Proposal -> bool)
    requires !p.Agent()
    ensures FollowsGraph(GraphRule(queries, p, s, fits), p)
  {
    var rule := GraphRule(queries, p, s, fits);
    forall prior: seq<Step>, step: Step | OnPath(p, step.kind) && rule(prior, step).Success?
      ensures FixedFollows(p, step.kind, OrderMissing(p, step.result), rule(prior, step).value.next)
    {
      FixedDecisionFollows(queries, p, s, prior, step, fits);
    }
  }

  /**
    Fixed runs read the ticket, then the bundle or later the policy, the order, the delivery unless
    the order is missing, propose, correct at most once and only without a thinking step, and submit.
  */
  lemma FixedLanguage(queries: string -> string, p: Program, s: Snapshot, steps: seq<Step>, fits: Proposal -> bool)
    requires !p.Agent() && Legal(GraphRule(queries, p, s, fits), steps)
    ensures InFixedLanguage(p, Kinds(steps), NextKind(GraphRule(queries, p, s, fits), steps))
  {
    FixedGraphFollows(queries, p, s, fits);
    var delivery, correction := FixedRunExists(GraphRule(queries, p, s, fits), p, steps);
  }

  lemma AfterOrder(rule: Rule, p: Program, steps: seq<Step>, i: nat)
    requires FollowsGraph(rule, p) && Legal(rule, steps) && i + 1 < |steps| && steps[i].kind.GetOrder?
    ensures steps[i + 1].kind.GetDelivery? <==> !OrderMissing(p, steps[i].result)
  {
    LegalAt(rule, steps, i);
    LegalAt(rule, steps, i + 1);
    assert steps[..i + 1][..i] == steps[..i];
    assert OnPath(p, steps[i].kind);
  }

  /** The delivery read is skipped exactly when the order was reported missing. */
  lemma DeliverySkippedWhenMissing(queries: string -> string, p: Program, s: Snapshot, steps: seq<Step>, fits: Proposal -> bool, i: nat)
    requires !p.Agent() && Legal(GraphRule(queries, p, s, fits), steps)
    requires i + 1 < |steps| && steps[i].kind.GetOrder?
    ensures steps[i + 1].kind.GetDelivery? <==> !OrderMissing(p, steps[i].result)
  {
    FixedGraphFollows(queries, p, s, fits);
    AfterOrder(GraphRule(queries, p, s, fits), p, steps, i);
  }

  // ---------- both words of the original program are spoken ----------

  lemma LegalExtend(rule: Rule, steps: seq<Step>, step: Step, next: Option<StepKind>)
    requires Legal(rule, steps) && NextKind(rule, steps) == Some(step.kind)
    requires rule(steps, step).Success? && rule(steps, step).value.next == next
    ensures Legal(rule, steps + [step]) && NextKind(rule, steps + [step]) == next
  {
    assert (steps + [step])[..|steps|] == steps;
  }

  function SampleProposal(s: Snapshot): Proposal {
    Plain("no_action", "", "no further action", [EvidenceRef(s, "ticket")])
  }

  /** An exemplary step of each kind, made under call identity `id`. */
  function SampleStep(s: Snapshot, id: string, kind: StepKind, correct: bool): Step {
    match kind
    case ReadTicket => Step(kind, StepResult("", "", [EvidenceRef(s, "ticket")], TicketContent(s.ticket), None, false))
    case SearchPolicy => Step(kind, StepResult(id, id, [], Search(s.id, []), None, false))
    case SubmitProposal => Step(kind, StepResult("", "", [], NullContent, Some(SampleProposal(s)), false))
    case ModelProposal => Step(kind, StepResult("", id, [], NullContent, if correct then None else Some(SampleProposal(s)), correct))
    case ProtocolCorrection => Step(kind, StepResult("", id, [], NullContent, Some(SampleProposal(s)), false))
    case _ =>
      var noun := EvidenceKind(kind);
      Step(kind, StepResult(id, id, [EvidenceRef(s, noun)],
                            Evidence(s.id, EvidenceRef(s, noun), noun, None, "", false, None, None, {}), None, false))
  }

  function SampleNext(kind: StepKind, correct: bool): Option<StepKind> {
    match kind
    case ReadTicket => Some(GetOrder)
    case GetOrder => Some(GetDelivery)
    case GetDelivery => Some(SearchPolicy)
    case SearchPolicy => Some(ModelProposal)
    case ModelProposal => Some(if correct then ProtocolCorrection else SubmitProposal)
    case ProtocolCorrection => Some(SubmitProposal)
    case _ => None
  }

  ghost predicate SampleHistory(s: Snapshot, id: string, steps: seq<Step>, correct: bool) {
    forall i :: 0 <= i < |steps| ==> OnPath(Bounded, steps[i].kind) && steps[i] == SampleStep(s, id, steps[i].kind, correct)
  }

  lemma SampleNotRefused(s: Snapshot, id: string, steps: seq<Step>, kind: StepKind, correct: bool)
    requires ValidUUID(id) && SampleHistory(s, id, steps, correct) && OnPath(Bounded, kind)
    ensures Refusal(Bounded, s, steps, SampleStep(s, id, kind, correct)).None?
  {
  }

  lemma SampleReadAccepted(queries: string -> string, s: Snapshot, id: string, steps: seq<Step>, kind: StepKind, correct: bool)
    requires ValidUUID(id) && (kind.GetOrder? || kind.GetDelivery? || kind.SearchPolicy?)
    ensures DecideTool(queries, Bounded, s, steps, SampleStep(s, id, kind, correct)) == Success(Decision(SampleNext(kind, correct), None))
  {
  }

  lemma SampleModelAccepted(s: Snapshot, id: string, steps: seq<Step>, kind: StepKind, correct: bool, fits: Proposal -> bool)
    requires ValidUUID(id) && (kind.ModelProposal? || kind.ProtocolCorrection? || kind.SubmitProposal?)
    requires kind.SubmitProposal? ==>
               steps != [] && steps[|steps| - 1] == SampleStep(s, id, if correct then ProtocolCorrection else ModelProposal, correct)
    ensures var d := DecideFixed(Bounded, s, steps, SampleStep(s, id, kind, correct), fits);
            d.Success? && d.value.next == SampleNext(kind, correct)
  {
    assert Allowed(s, steps, EvidenceRef(s, "ticket"));
  }

  /** A history of exemplary steps after which an exemplary step of this kind belongs. */
  ghost predicate SampleReady(s: Snapshot, id: string, steps: seq<Step>, kind: StepKind, correct: bool) {
    && SampleHistory(s, id, steps, correct) && OnPath(Bounded, kind)
    && (kind.SubmitProposal? ==> steps != [] && steps[|steps| - 1].kind == if correct then ProtocolCorrection else ModelProposal)
  }

  lemma SampleAccepted(queries: string -> string, s: Snapshot, id: string, steps: seq<Step>, kind: StepKind, correct: bool,
                       fits: Proposal -> bool)
    requires ValidUUID(id) && SampleReady(s, id, steps, kind, correct)
    ensures var d := Decide(queries, Bounded, s, steps, SampleStep(s, id, kind, correct), fits);
            d.Success? && d.value.next == SampleNext(kind, correct)
  {
    SampleNotRefused(s, id, steps, kind, correct);
    if kind.GetOrder? || kind.GetDelivery? || kind.SearchPolicy? {
      SampleReadAccepted(queries, s, id, steps, kind, correct);
    } else if !kind.ReadTicket? {
      SampleModelAccepted(s, id, steps, kind, correct, fits);
    }
  }

  ghost predicate AcceptsSamples(rule: Rule, s: Snapshot, id: string, correct: bool) {
    forall steps, kind :: SampleReady(s, id, steps, kind, correct) ==>
      && rule(steps, SampleStep(s, id, kind, correct)).Success?
      && rule(steps, SampleStep(s, id, kind, correct)).value.next == SampleNext(kind, correct)
  }

  ghost predicate Spells(rule: Rule, s: Snapshot, id: string, correct: bool, steps: seq<Step>, kinds: seq<StepKind>,
                         next: Option<StepKind>) {
    SampleHistory(s, id, steps, correct) && Legal(rule, steps) && NextKind(rule, steps) == next && Kinds(steps) == kinds
  }

  ghost predicate Spelled(rule: Rule, s: Snapshot, id: string, correct: bool, kinds: seq<StepKind>, next: Option<StepKind>) {
    exists steps :: Spells(rule, s, id, correct, steps, kinds, next)
  }

  lemma SampleGrows(s: Snapshot, id: string, steps: seq<Step>, kind: StepKind, correct: bool)
    requires SampleReady(s, id, steps, kind, correct)
    ensures var step := SampleStep(s, id, kind, correct);
            SampleHistory(s, id, steps + [step], correct) && Kinds(steps + [step]) == Kinds(steps) + [kind]
  {
  }

  lemma SpellOn(rule: Rule, s: Snapshot, id: string, correct: bool, kinds: seq<StepKind>, kind: StepKind)
    requires AcceptsSamples(rule, s, id, correct) && Spelled(rule, s, id, correct, kinds, Some(kind)) && OnPath(Bounded, kind)
    requires kind.SubmitProposal? ==> kinds != [] && kinds[|kinds| - 1] == if correct then ProtocolCorrection else ModelProposal
    ensures Spelled(rule, s, id, correct, kinds + [kind], SampleNext(kind, correct))
  {
    var steps: seq<Step> :| Spells(rule, s, id, correct, steps, kinds, Some(kind));
    assert kinds != [] ==> steps[|steps| - 1].kind == kinds[|kinds| - 1];
    assert SampleReady(s, id, steps, kind, correct);
    var step := SampleStep(s, id, kind, correct);
    SampleGrows(s, id, steps, kind, correct);
    LegalExtend(rule, steps, step, SampleNext(kind, correct));
    assert Spells(rule, s, id, correct, steps + [step], kinds + [kind], SampleNext(kind, correct));
  }

  const EARLY: seq<StepKind> := [ReadTicket, GetOrder, GetDelivery]

  lemma SpellReads(rule: Rule, s: Snapshot, id: string, correct: bool)
    requires AcceptsSamples(rule, s, id, correct)
    ensures Spelled(rule, s, id, correct, EARLY, Some(SearchPolicy))
  {
    assert Spells(rule, s, id, correct, [], [], Some(ReadTicket));
    SpellOn(rule, s, id, correct, [], ReadTicket);
    SpellOn(rule, s, id, correct, [] + [ReadTicket], GetOrder);
    SpellOn(rule, s, id, correct, [] + [ReadTicket] + [GetOrder], GetDelivery);
    assert [] + [ReadTicket] + [GetOrder] + [GetDelivery] == EARLY;
  }

  lemma SpellModels(rule: Rule, s: Snapshot, id: string, correct: bool)
    requires AcceptsSamples(rule, s, id, correct)
    ensures Spelled(rule, s, id, correct, EARLY + [SearchPolicy] + [ModelProposal], SampleNext(ModelProposal, correct))
  {
    SpellReads(rule, s, id, correct);
    SpellOn(rule, s, id, correct, EARLY, SearchPolicy);
    SpellOn(rule, s, id, correct, EARLY + [SearchPolicy], ModelProposal);
  }

  lemma WordShape(correct: bool)
    ensures FixedWord(Bounded, true, correct)
            == EARLY + [SearchPolicy] + [ModelProposal] + (if correct then [ProtocolCorrection] else []) + [SubmitProposal]
  {
  }

  lemma SpellWord(rule: Rule, s: Snapshot, id: string, correct: bool)
    requires AcceptsSamples(rule, s, id, correct)
    ensures Spelled(rule, s, id, correct, FixedWord(Bounded, true, correct), None)
  {
    SpellModels(rule, s, id, correct);
    WordShape(correct);
    var models := EARLY + [SearchPolicy] + [ModelProposal];
    if correct {
      SpellOn(rule, s, id, correct, models, ProtocolCorrection);
      SpellOn(rule, s, id, correct, models + [ProtocolCorrection], SubmitProposal);
    } else {
      SpellOn(rule, s, id, correct, models, SubmitProposal);
      assert models + [] == models;
    }
  }

  /** Each of the original program's two words, with and without a correction, is spelled by a legal closed history. */
  lemma OriginalWordsAreLegal(queries: string -> string, s: Snapshot, id: string, correct: bool, fits: Proposal -> bool)
    requires ValidUUID(id)
    ensures Spelled(GraphRule(queries, Bounded, s, fits), s, id, correct, FixedWord(Bounded, true, correct), None)
  {
    var rule := GraphRule(queries, Bounded, s, fits);
    forall steps, kind | SampleReady(s, id, steps, kind, correct)
      ensures rule(steps, SampleStep(s, id, kind, correct)).Success?
      ensures rule(steps, SampleStep(s, id, kind, correct)).value.next == SampleNext(kind, correct)
    {
      SampleAccepted(queries, s, id, steps, kind, correct, fits);
    }
    SpellWord(rule, s, id, correct);
  }

  // ---------- the language of the agent programs ----------

  /** Where a bounded investigation stands; each phase awaits one kind. */
  datatype Phase =
    | Ticketing | Bundling | Deciding(corrected: bool) | Correcting | Fetching(tool: StepKind, corrected: bool)
    | StatusReading | Judging(supplemented: bool) | SupplementReading | Submitting | Ended

  function Awaits(phase: Phase): Option<StepKind> {
    match phase
    case Ticketing => Some(ReadTicket)
    case Bundling => Some(ReadPolicyBundle)
    case Deciding(_) => Some(ModelDecision)
    case Correcting => Some(ProtocolCorrection)
    case Fetching(tool, _) => Some(tool)
    case StatusReading => Some(SearchPolicy)
    case Judging(_) => Some(ModelProposal)
    case SupplementReading => Some(SearchPolicy)
    case Submitting => Some(SubmitProposal)
    case Ended => None
  }

  /** What a decision or its one correction leads to. */
  predicate Decides(p: Program, corrected: bool, step: Step, next: Phase) {
    if step.result.correctionRequired then step.kind.ModelDecision? && !corrected && next.Correcting?
    else
      match step.result.content
      case InvestigationComplete(_) => p.Adjudicates() && (next == Judging(false) || (p.ReadsStatusPolicy() && next.StatusReading?))
      case ToolDecision(name, _) => IsTool(name) && !name.ReadPolicyBundle? && next == Fetching(name, corrected)
      case _ => !p.Adjudicates() && next.Submitting?
  }

  predicate Moves(p: Program, phase: Phase, step: Step, next: Phase) {
    && Awaits(phase) == Some(step.kind)
    && match phase
       case Ticketing => next == if p.ReadsBundle() then Bundling else Deciding(false)
       case Bundling => next == Deciding(false)
       case Deciding(corrected) => Decides(p, corrected, step, next)
       case Correcting => Decides(p, true, step, next)
       case Fetching(_, corrected) => next == Deciding(corrected)
       case StatusReading => next == Judging(false)
       case Judging(supplemented) =>
         if step.result.content.NullContent? then next.Submitting? else p.Supplements() && !supplemented && next.SupplementReading?
       case SupplementReading => next == Judging(true)
       case Submitting => next.Ended?
       case Ended => false
  }

  ghost predicate Walk(p: Program, steps: seq<Step>, phases: seq<Phase>) {
    && |phases| == |steps| + 1 && phases[0].Ticketing?
    && forall i :: 0 <= i < |steps| ==> Moves(p, phases[i], steps[i], phases[i + 1])
  }

  /** What the graph's decision on an agent step depends on and yields. */
  ghost predicate AgentFollows(p: Program, prior: seq<Step>, step: Step, next: Option<StepKind>) {
    var r := step.result;
    match step.kind
    case ReadTicket => next == Some(if p.ReadsBundle() then ReadPolicyBundle else ModelDecision)
    case SubmitProposal => next.None?
    case ModelProposal =>
      && p.Adjudicates()
      && if r.content.NullContent? then next == Some(SubmitProposal)
         else p.Supplements() && !Contains(prior, ModelProposal) && next == Some(SearchPolicy)
    case OtherKind(_) => false
    case ApplyTicketResolution => false
    case _ =>
      if IsTool(step.kind) then
        && prior != []
        && var last := prior[|prior| - 1];
           next == Some(if (p.ReadsStatusPolicy() && Marker(last)) || (p.Supplements() && last.kind.ModelProposal?) then ModelProposal
                        else ModelDecision)
      else if r.correctionRequired then
        step.kind.ModelDecision? && !Contains(prior, ProtocolCorrection) && next == Some(ProtocolCorrection)
      else if r.content.InvestigationComplete? then
        p.Adjudicates() && Marker(step) && (next == Some(ModelProposal) || (p.ReadsStatusPolicy() && next == Some(SearchPolicy)))
      else if r.content.ToolDecision? then IsTool(r.content.name) && !r.content.name.ReadPolicyBundle? && next == Some(r.content.name)
      else !p.Adjudicates() && next == Some(SubmitProposal)
  }

  lemma SupplementComesFirst(queries: string -> string, s: Snapshot, prior: seq<Step>, c: Content)
    requires CheckSupplement(queries, s, prior, c).Pass?
    ensures !Contains(prior, ModelProposal)
  {
    forall i | 0 <= i < |prior| ensures !prior[i].kind.ModelProposal? {
      assert !Blocks(s, prior[i], SupplementTool(queries, c.topic));
    }
  }

  lemma AgentToolFollows(queries: string -> string, p: Program, s: Snapshot, prior: seq<Step>, step: Step)
    requires p.Agent() && IsTool(step.kind) && DecideTool(queries, p, s, prior, step).Success?
    ensures AgentFollows(p, prior, step, DecideTool(queries, p, s, prior, step).value.next)
  {
  }

  lemma AgentModelFollows(queries: string -> string, p: Program, s: Snapshot, prior: seq<Step>, step: Step, fits: Proposal -> bool)
    requires p.Agent() && DecideAgent(queries, p, s, prior, step, fits).Success?
    requires !step.kind.ReadTicket? && !IsTool(step.kind)
    ensures AgentFollows(p, prior, step, DecideAgent(queries, p, s, prior, step, fits).value.next)
  {
    if step.kind.ModelProposal? && !step.result.content.NullContent? {
      SupplementComesFirst(queries, s, prior, step.result.content);
    }
  }

  lemma AgentDecisionFollows(queries: string -> string, p: Program, s: Snapshot, prior: seq<Step>, step: Step, fits: Proposal -> bool)
    requires p.Agent() && Decide(queries, p, s, prior, step, fits).Success?
    ensures AgentFollows(p, prior, step, Decide(queries, p, s, prior, step, fits).value.next)
  {
    if IsTool(step.kind) {
      AgentToolFollows(queries, p, s, prior, step);
    } else if !step.kind.ReadTicket? {
      AgentModelFollows(queries, p, s, prior, step, fits);
    }
  }

  /** What the history must look like for its phase. */
  ghost predicate InPhase(p: Program, steps: seq<Step>, phase: Phase) {
    match phase
    case Deciding(corrected) => corrected ==> Contains(steps, ProtocolCorrection)
    case Fetching(tool, corrected) =>
      && (corrected ==> Contains(steps, ProtocolCorrection)) && IsTool(tool)
      && steps != [] && !Marker(steps[|steps| - 1]) && !steps[|steps| - 1].kind.ModelProposal?
    case Bundling => steps != [] && steps[|steps| - 1].kind.ReadTicket?
    case StatusReading => p.ReadsStatusPolicy() && steps != [] && Marker(steps[|steps| - 1])
    case SupplementReading => p.Supplements() && steps != [] && steps[|steps| - 1].kind.ModelProposal? && Contains(steps, ModelProposal)
    case Judging(supplemented) => supplemented ==> Contains(steps, ModelProposal)
    case _ => true
  }

  lemma ContainsGrows(steps: seq<Step>, step: Step, kind: StepKind)
    ensures Contains(steps + [step], kind) <==> Contains(steps, kind) || step.kind == kind
  {
    var all := steps + [step];
    assert all[|steps|] == step;
    assert forall i :: 0 <= i < |steps| ==> all[i] == steps[i];
  }

  /** The phase a step leads to; the decision's next kind tells the two ends of an investigation apart. */
  function PhaseAfter(p: Program, phase: Phase, step: Step, next: Option<StepKind>): Phase {
    match phase
    case Ticketing => if p.ReadsBundle() then Bundling else Deciding(false)
    case Bundling => Deciding(false)
    case Fetching(_, corrected) => Deciding(corrected)
    case StatusReading => Judging(false)
    case Judging(_) => if step.result.content.NullContent? then Submitting else SupplementReading
    case SupplementReading => Judging(true)
    case Submitting => Ended
    case Ended => Ended
    case _ =>
      if step.result.correctionRequired then Correcting
      else if step.result.content.InvestigationComplete? then (if next == Some(SearchPolicy) then StatusReading else Judging(false))
      else if step.result.content.ToolDecision? then Fetching(step.result.content.name, !phase.Deciding? || phase.corrected)
      else Submitting
  }

  lemma PhaseStep(p: Program, steps: seq<Step>, phase: Phase, step: Step, next: Option<StepKind>)
    requires p.Agent() && InPhase(p, steps, phase) && Awaits(phase) == Some(step.kind) && AgentFollows(p, steps, step, next)
    ensures var phase' := PhaseAfter(p, phase, step, next);
            Moves(p, phase, step, phase') && Awaits(phase') == next && InPhase(p, steps + [step], phase')
  {
    ContainsGrows(steps, step, ProtocolCorrection);
    ContainsGrows(steps, step, ModelProposal);
  }

  ghost predicate FollowsAgent(rule: Rule, p: Program) {
    forall prior: seq<Step>, step: Step :: rule(prior, step).Success? ==> AgentFollows(p, prior, step, rule(prior, step).value.next)
  }

  lemma {:induction false} WalkExists(rule: Rule, p: Program, steps: seq<Step>) returns (phases: seq<Phase>)
    requires p.Agent() && FollowsAgent(rule, p) && Legal(rule, steps)
    ensures Walk(p, steps, phases) && Awaits(phases[|steps|]) == NextKind(rule, steps) && InPhase(p, steps, phases[|steps|])
  {
    if steps == [] {
      phases := [Ticketing];
    } else {
      var n := |steps| - 1;
      var before := WalkExists(rule, p, steps[..n]);
      var next := NextKind(rule, steps);
      assert steps == steps[..n] + [steps[n]];
      PhaseStep(p, steps[..n], before[n], steps[n], next);
      phases := before + [PhaseAfter(p, before[n], steps[n], next)];
    }
  }

  /** Every legal agent history walks the phases, and the next kind is what its last phase awaits. */
  lemma AgentLanguage(queries: string -> string, p: Program, s: Snapshot, steps: seq<Step>, fits: Proposal -> bool)
    requires p.Agent() && Legal(GraphRule(queries, p, s, fits), steps)
    ensures exists phases :: Walk(p, steps, phases) && Awaits(phases[|steps|]) == NextKind(GraphRule(queries, p, s, fits), steps)
  {
    AgentGraphFollows(queries, p, s, fits);
    var phases := WalkExists(GraphRule(queries, p, s, fits), p, steps);
  }

  lemma AgentGraphFollows(queries: string -> string, p: Program, s: Snapshot, fits: Proposal -> bool)
    requires p.Agent()
    ensures FollowsAgent(GraphRule(queries, p, s, fits), p)
  {
    var rule := GraphRule(queries, p, s, fits);
    forall prior: seq<Step>, step: Step | rule(prior, step).Success?
      ensures AgentFollows(p, prior, step, rule(prior, step).value.next)
    {
      AgentDecisionFollows(queries, p, s, prior, step, fits);
    }
  }

  // ---------- how often ----------

  datatype Role = CorrectionRole | MarkerRole | SupplementRole | ProposalRole | SubmitRole

  predicate Plays(step: Step, role: Role) {
    match role
    case CorrectionRole => step.kind.ProtocolCorrection?
    case MarkerRole => Marker(step)
    case SupplementRole => step.kind.ModelProposal? && !step.result.content.NullContent?
    case ProposalRole => step.kind.ModelProposal?
    case SubmitRole => step.kind.SubmitProposal?
  }

  function Count(steps: seq<Step>, role: Role): nat {
    if steps == [] then 0 else Count(steps[..|steps| - 1], role) + (if Plays(steps[|steps| - 1], role) then 1 else 0)
  }

  /** How many more of a role the phases still allow. */
  function Left(phase: Phase, role: Role): nat {
    match role
    case CorrectionRole =>
      if phase.Ticketing? || phase.Bundling? || phase.Correcting? || ((phase.Deciding? || phase.Fetching?) && !phase.corrected) then 1 else 0
    case MarkerRole =>
      if phase.Ticketing? || phase.Bundling? || phase.Correcting? || phase.Deciding? || phase.Fetching? then 1 else 0
    case SupplementRole => if phase == Judging(true) || phase.SupplementReading? || phase.Submitting? || phase.Ended? then 0 else 1
    case ProposalRole =>
      if phase.Submitting? || phase.Ended? then 0 else if phase == Judging(true) || phase.SupplementReading? then 1 else 2
    case SubmitRole => if phase.Ended? then 0 else 1
  }

  lemma MoveSpends(p: Program, phase: Phase, step: Step, next: Phase, role: Role)
    requires Moves(p, phase, step, next) && (phase.Fetching? ==> IsTool(phase.tool))
    ensures (if Plays(step, role) then 1 else 0) + Left(next, role) <= Left(phase, role)
  {
  }

  lemma {:induction false} WalkCounts(p: Program, steps: seq<Step>, phases: seq<Phase>, role: Role)
    requires Walk(p, steps, phases)
    ensures Count(steps, role) + Left(phases[|steps|], role) <= Left(Ticketing, role)
    ensures phases[|steps|].Fetching? ==> IsTool(phases[|steps|].tool)
  {
    if steps != [] {
      var n := |steps| - 1;
      assert Walk(p, steps[..n], phases[..n + 1]);
      WalkCounts(p, steps[..n], phases[..n + 1], role);
      MoveSpends(p, phases[n], steps[n], phases[n + 1], role);
    }
  }

  /**
    An agent run has at most one correction, one end of investigation, one policy supplement and two
    proposal steps, and submits at most once, as its last step.
  */
  lemma AgentCounts(queries: string -> string, p: Program, s: Snapshot, steps: seq<Step>, fits: Proposal -> bool)
    requires p.Agent() && Legal(GraphRule(queries, p, s, fits), steps)
    ensures Count(steps, CorrectionRole) <= 1 && Count(steps, MarkerRole) <= 1 && Count(steps, SupplementRole) <= 1
    ensures Count(steps, ProposalRole) <= 2 && Count(steps, SubmitRole) <= 1
  {
    AgentGraphFollows(queries, p, s, fits);
    var phases := WalkExists(GraphRule(queries, p, s, fits), p, steps);
    forall role ensures Count(steps, role) <= Left(Ticketing, role) {
      WalkCounts(p, steps, phases, role);
    }
    assert Left(Ticketing, CorrectionRole) == 1 && Left(Ticketing, MarkerRole) == 1 && Left(Ticketing, SupplementRole) == 1;
    assert Left(Ticketing, ProposalRole) == 2 && Left(Ticketing, SubmitRole) == 1;
  }

  // ---------- how a run closes ----------

  ghost predicate Conclusive(p: Program, s: Snapshot, prior: seq<Step>, step: Step, fits: Proposal -> bool) {
    && step.kind.SubmitProposal? && prior != [] && IsModelStep(prior[|prior| - 1].kind)
    && step.result.proposal.Some? && prior[|prior| - 1].result.proposal == step.result.proposal
    && ValidProposal(s, prior, step.result.proposal)
    && (!p.Bounded? ==> Accepted(s, Records(prior), step.result.proposal, p.Agent(), fits))
  }

  lemma SubmitConclusive(queries: string -> string, p: Program, s: Snapshot, prior: seq<Step>, step: Step, fits: Proposal -> bool)
    requires Decide(queries, p, s, prior, step, fits).Success? && step.kind.SubmitProposal?
    ensures Conclusive(p, s, prior, step, fits)
  {
  }

  /**
    A closed run repeats the proposal of its last model step; the validator accepts that proposal on
    this history, and every reference it carries was returned by one of the run's own reads.
  */
  lemma ClosedRunIsConclusive(queries: string -> string, p: Program, s: Snapshot, steps: seq<Step>, fits: Proposal -> bool)
    requires Legal(GraphRule(queries, p, s, fits), steps) && NextKind(GraphRule(queries, p, s, fits), steps).None?
    ensures steps != [] && Conclusive(p, s, steps[..|steps| - 1], steps[|steps| - 1], fits)
    ensures CitesOwnReads(s, steps[..|steps| - 1], steps[|steps| - 1].result.proposal.value)
  {
    var n := |steps| - 1;
    LegalAt(GraphRule(queries, p, s, fits), steps, n);
    DecisionWellFormed(queries, p, s, steps[..n], steps[n], fits);
    SubmitConclusive(queries, p, s, steps[..n], steps[n], fits);
    EnvelopeForm(queries, p, s, steps[..n], steps[n], fits);
    ConclusiveCitesReads(p, s, steps[..n], steps[n], fits);
  }

  /** Every source a claim cites came from the ticket or a read of this history. */
  ghost predicate CitesOwnReads(s: Snapshot, prior: seq<Step>, proposal: Proposal) {
    proposal.Support? ==> forall claim, r :: claim in proposal.claims && r in claim.refs ==> Allowed(s, prior, r.ref)
  }

  lemma ConclusiveCitesReads(p: Program, s: Snapshot, prior: seq<Step>, step: Step, fits: Proposal -> bool)
    requires Conclusive(p, s, prior, step, fits) && (step.result.proposal.value.Support? ==> !p.Bounded?)
    ensures CitesOwnReads(s, prior, step.result.proposal.value)
  {
    var proposal := step.result.proposal.value;
    if proposal.Support? {
      AcceptedReferencesReturned(s, Records(prior), proposal, p.Agent(), fits);
      forall claim, r | claim in proposal.claims && r in claim.refs ensures Allowed(s, prior, r.ref) {
        ReturnedIsAllowed(s, prior, r.ref);
      }
    }
  }

  lemma EnvelopeForm(queries: string -> string, p: Program, s: Snapshot, prior: seq<Step>, step: Step, fits: Proposal -> bool)
    requires Decide(queries, p, s, prior, step, fits).Success? && step.result.proposal.Some?
    ensures step.result.proposal.value.Support? <==> !p.Bounded?
  {
  }

  lemma ReturnedIsAllowed(s: Snapshot, prior: seq<Step>, ref: string)
    requires Returned(s, Records(prior), ref)
    ensures Allowed(s, prior, ref)
  {
    if ref != EvidenceRef(s, "ticket") {
      var records := Records(prior);
      var i :| 0 <= i < |records| && IsTool(records[i].kind) && ref in records[i].result.refs;
      assert prior[i].kind == records[i].kind && prior[i].result.refs == records[i].result.refs;
    }
  }

  lemma CompiledIsValid(s: Snapshot, prior: seq<Step>, model: Model, repeatedSearch: bool, fits: Proposal -> bool)
    requires Compile(s, Records(prior), model, repeatedSearch, fits).Success?
    ensures var proposal := Compile(s, Records(prior), model, repeatedSearch, fits).value;
            ValidShape(proposal) && ValidProposal(s, prior, Some(proposal)) && Accepted(s, Records(prior), Some(proposal), repeatedSearch, fits)
  {
    var proposal := Compile(s, Records(prior), model, repeatedSearch, fits).value;
    CompiledIsAccepted(s, Records(prior), model, repeatedSearch, fits);
    CompiledShape(s, Records(prior), model, repeatedSearch, fits);
    AcceptedReferencesReturned(s, Records(prior), proposal, repeatedSearch, fits);
    forall ref | ref in proposal.evidenceRefs ensures Allowed(s, prior, ref) {
      ReturnedIsAllowed(s, prior, ref);
    }
    SummaryLength(model.verdict, proposal.claims);
  }

  /** A proposal step that carries a compiled proposal. */
  predicate CarriesProposal(step: Step, proposal: Proposal) {
    && step.kind.ModelProposal? && ValidUUID(step.result.physicalCall) && step.result.toolInvocation == ""
    && step.result.refs == [] && step.result.content.NullContent? && !step.result.correctionRequired
    && step.result.proposal == Some(proposal)
  }

  lemma FixedProposalDecision(p: Program, s: Snapshot, prior: seq<Step>, proposal: Proposal, step: Step, fits: Proposal -> bool)
    requires p.Fixed() && CarriesProposal(step, proposal)
    requires ValidProposal(s, prior, Some(proposal)) && Accepted(s, Records(prior), Some(proposal), false, fits)
    ensures DecideFixed(p, s, prior, step, fits) == Success(Decision(Some(SubmitProposal), Some(proposal)))
  {
  }

  lemma NotRefused(p: Program, s: Snapshot, prior: seq<Step>, proposal: Proposal, step: Step)
    requires p.Fixed() && CarriesProposal(step, proposal) && ValidShape(proposal) && CheckBundle(p, s, prior, ModelProposal).Pass?
    requires forall i :: 0 <= i < |prior| ==> ValidEnvelope(p, prior[i].result)
    ensures Refusal(p, s, prior, step).None?
  {
  }

  lemma FixedDispatch(queries: string -> string, p: Program, s: Snapshot, prior: seq<Step>, step: Step, fits: Proposal -> bool, d: Decision)
    requires p.Fixed() && Refusal(p, s, prior, step) == None && step.kind == ModelProposal
    requires DecideFixed(p, s, prior, step, fits) == Success(d)
    ensures Decide(queries, p, s, prior, step, fits) == Success(d)
  {
    assert !IsTool(step.kind) && !step.kind.ReadTicket? && !p.Agent();
  }

  lemma FixedCommits(queries: string -> string, p: Program, s: Snapshot, prior: seq<Step>, proposal: Proposal, step: Step,
                     fits: Proposal -> bool)
    requires p.Fixed() && CarriesProposal(step, proposal) && ValidShape(proposal) && CheckBundle(p, s, prior, ModelProposal).Pass?
    requires forall i :: 0 <= i < |prior| ==> ValidEnvelope(p, prior[i].result)
    requires ValidProposal(s, prior, Some(proposal)) && Accepted(s, Records(prior), Some(proposal), false, fits)
    ensures Decide(queries, p, s, prior, step, fits) == Success(Decision(Some(SubmitProposal), Some(proposal)))
  {
    FixedProposalDecision(p, s, prior, proposal, step, fits);
    NotRefused(p, s, prior, proposal, step);
    FixedDispatch(queries, p, s, prior, step, fits, Decision(Some(SubmitProposal), Some(proposal)));
  }

  /** Whatever the compiler makes of a model's answer, a fixed run that awaits a proposal commits it and goes on to submit it. */
  lemma CompiledProposalCommits(queries: string -> string, p: Program, s: Snapshot, steps: seq<Step>, model: Model, step: Step,
                                fits: Proposal -> bool)
    requires p.Fixed() && CheckBundle(p, s, steps, ModelProposal).Pass?
    requires forall i :: 0 <= i < |steps| ==> ValidEnvelope(p, steps[i].result)
    requires Compile(s, Records(steps), model, false, fits).Success?
    requires CarriesProposal(step, Compile(s, Records(steps), model, false, fits).value)
    ensures Decide(queries, p, s, steps, step, fits) == Success(Decision(Some(SubmitProposal), step.result.proposal))
  {
    var proposal := Compile(s, Records(steps), model, false, fits).value;
    CompiledIsValid(s, steps, model, false, fits);
    FixedCommits(queries, p, s, steps, proposal, step, fits);
  }

  // ---------- no tool call is asked for twice ----------

  predicate Asks(step: Step) {
    (step.kind.ModelDecision? || step.kind.ProtocolCorrection?) && step.result.proposal.None? && !step.result.correctionRequired
  }

  /** The admission check of a tool step, before its logical count is consumed. */
  function CheckAgentTool(s: Snapshot, prior: seq<Step>, kind: StepKind): Outcome<GraphError> {
    var current := PendingModelTool(s, prior, kind);
    if current.Failure? then Fail(current.error)
    else if exists i :: 0 <= i < |prior| - 1 && Asks(prior[i]) && AgentTool(s, prior[i].result.content).None? then Fail(StepConflict)
    else Need(forall i :: 0 <= i < |prior| - 1 && Asks(prior[i]) ==> AgentTool(s, prior[i].result.content) != Some(current.value), ModelProtocol)
  }

  ghost function CheckAdmission(queries: string -> string, p: Program, s: Snapshot, prior: seq<Step>, kind: StepKind): Outcome<GraphError> {
    var bundle := CheckBundle(p, s, prior, kind);
    if bundle.Fail? then bundle
    else if kind.ReadPolicyBundle? then Pass
    else if prior != [] && ((p.Supplements() && prior[|prior| - 1].kind.ModelProposal?)
                            || (p.ReadsStatusPolicy() && Marker(prior[|prior| - 1]))) then
      var pending := PendingTool(queries, p, s, prior, kind);
      if pending.Failure? then Fail(pending.error) else Pass
    else CheckAgentTool(s, prior, kind)
  }

  /** A legal history each of whose reads passed its admission check. */
  ghost predicate Admitted(queries: string -> string, p: Program, s: Snapshot, steps: seq<Step>, fits: Proposal -> bool) {
    && Legal(GraphRule(queries, p, s, fits), steps)
    && forall j :: 0 <= j < |steps| && IsTool(steps[j].kind) ==> CheckAdmission(queries, p, s, steps[..j], steps[j].kind).Pass?
  }

  /** What the read at `j` was asked for: by the model, by a supplement, for the ticket's status, or as the bundle. */
  ghost function RequestAt(queries: string -> string, p: Program, s: Snapshot, steps: seq<Step>, j: nat): Result<Content, GraphError>
    requires j < |steps|
  {
    PendingTool(queries, p, s, steps[..j], steps[j].kind)
  }

  /** Registered topics have different queries. */
  ghost predicate DistinctQueries(queries: string -> string) {
    forall t, u :: TopicAliases(t) != [] && TopicAliases(u) != [] && queries(t) == queries(u) ==> t == u
  }

  /** The origins a read's request can have. */
  ghost predicate ByModel(p: Program, steps: seq<Step>, j: nat) {
    && 0 < j < |steps| && !steps[j].kind.ReadPolicyBundle? && Asks(steps[j - 1]) && steps[j - 1].result.content.ToolDecision?
  }

  ghost predicate ByStatus(p: Program, steps: seq<Step>, j: nat) {
    p.ReadsStatusPolicy() && 0 < j < |steps| && steps[j].kind.SearchPolicy? && Marker(steps[j - 1])
  }

  ghost predicate BySupplement(p: Program, steps: seq<Step>, j: nat) {
    && p.Supplements() && 0 < j < |steps| && steps[j].kind.SearchPolicy? && steps[j - 1].kind.ModelProposal?
    && steps[j - 1].result.content.Supplement?
  }

  lemma ReadWasPending(queries: string -> string, p: Program, s: Snapshot, steps: seq<Step>, fits: Proposal -> bool, j: nat)
    requires p.Agent() && Admitted(queries, p, s, steps, fits) && j < |steps| && IsTool(steps[j].kind)
    ensures j > 0 && RequestAt(queries, p, s, steps, j).Success?
    ensures CheckAdmission(queries, p, s, steps[..j], steps[j].kind).Pass?
  {
    LegalAt(GraphRule(queries, p, s, fits), steps, j);
  }

  /** Where a read's request comes from, and what it then is. */
  ghost predicate Origin(queries: string -> string, p: Program, s: Snapshot, steps: seq<Step>, j: nat, request: Content) {
    && 0 < j < |steps|
    && var last := steps[j - 1].result.content;
       || (steps[j].kind.ReadPolicyBundle? && j == 1 && request == ToolDecision(ReadPolicyBundle, OrderId(None)))
       || (ByModel(p, steps, j) && AgentTool(s, last) == Some(request) && request == last && !request.name.ReadPolicyBundle?)
       || (ByStatus(p, steps, j) && request == SupplementTool(queries, "ticket_status"))
       || (BySupplement(p, steps, j) && request == SupplementTool(queries, last.topic))
  }

  lemma RequestHasOrigin(queries: string -> string, p: Program, s: Snapshot, steps: seq<Step>, j: nat)
    requires 0 < j < |steps| && IsTool(steps[j].kind) && RequestAt(queries, p, s, steps, j).Success?
    ensures Origin(queries, p, s, steps, j, RequestAt(queries, p, s, steps, j).value)
  {
    var prior := steps[..j];
    assert prior[|prior| - 1] == steps[j - 1];
  }

  // Two reads in the order of their requests: `i` before `j`, each by one of the three origins.

  lemma ModelAfterModel(queries: string -> string, p: Program, s: Snapshot, steps: seq<Step>, i: nat, j: nat)
    requires i < j < |steps| && ByModel(p, steps, i) && ByModel(p, steps, j)
    requires AgentTool(s, steps[i - 1].result.content) == Some(steps[i - 1].result.content)
    requires CheckAdmission(queries, p, s, steps[..j], steps[j].kind).Pass? && !Marker(steps[j - 1])
    ensures steps[i - 1].result.content != steps[j - 1].result.content
  {
    var prior := steps[..j];
    assert prior[i - 1] == steps[i - 1] && prior[|prior| - 1] == steps[j - 1];
  }

  lemma ModelAfterStatus(queries: string -> string, p: Program, s: Snapshot, steps: seq<Step>, i: nat, j: nat)
    requires i < j < |steps| && ByStatus(p, steps, i) && ByModel(p, steps, j)
    ensures CheckAdmission(queries, p, s, steps[..j], steps[j].kind).Fail?
  {
    var prior := steps[..j];
    assert prior[i - 1] == steps[i - 1] && prior[|prior| - 1] == steps[j - 1];
    assert Asks(prior[i - 1]) && AgentTool(s, prior[i - 1].result.content).None?;
  }

  lemma StatusOnlyAfterModel(queries: string -> string, p: Program, s: Snapshot, steps: seq<Step>, i: nat, j: nat)
    requires 0 < i < j < |steps| && ByStatus(p, steps, j) && RequestAt(queries, p, s, steps, j).Success?
    ensures !ByStatus(p, steps, i) && !BySupplement(p, steps, i)
    ensures ByModel(p, steps, i) ==> AgentTool(s, steps[i - 1].result.content) != Some(SupplementTool(queries, "ticket_status"))
  {
    var prior := steps[..j];
    assert prior[i - 1] == steps[i - 1] && prior[i] == steps[i] && prior[|prior| - 1] == steps[j - 1];
    assert !Blocks(s, prior[i - 1], SupplementTool(queries, "ticket_status")) && !StatusRead(prior);
  }

  lemma SupplementOnlyOnce(queries: string -> string, p: Program, s: Snapshot, steps: seq<Step>, i: nat, j: nat)
    requires 0 < i < j < |steps| && BySupplement(p, steps, j) && RequestAt(queries, p, s, steps, j).Success? && IsTool(steps[i].kind)
    ensures var topic := steps[j - 1].result.content.topic;
            && !BySupplement(p, steps, i) && TopicAliases(topic) != []
            && (ByStatus(p, steps, i) ==> topic != "ticket_status")
            && (ByModel(p, steps, i) ==> AgentTool(s, steps[i - 1].result.content) != Some(SupplementTool(queries, topic)))
  {
    var prior := steps[..j];
    assert prior[|prior| - 1] == steps[j - 1] && i != j - 1;
    var earlier := prior[..|prior| - 1];
    assert earlier[i - 1] == steps[i - 1] && earlier[i] == steps[i];
    assert CheckSupplement(queries, s, earlier, steps[j - 1].result.content).Pass?;
    assert !Blocks(s, earlier[i - 1], SupplementTool(queries, steps[j - 1].result.content.topic));
  }

  // A model asks for reads only before it proposes.

  predicate Investigating(phase: Phase) {
    phase.Ticketing? || phase.Bundling? || phase.Deciding? || phase.Correcting? || phase.Fetching?
  }

  lemma {:induction false} InvestigationIsFirst(p: Program, steps: seq<Step>, phases: seq<Phase>, i: nat, j: nat)
    requires Walk(p, steps, phases) && i <= j < |phases| && Investigating(phases[j])
    ensures Investigating(phases[i])
  {
    if i < j {
      assert Moves(p, phases[j - 1], steps[j - 1], phases[j]);
      InvestigationIsFirst(p, steps, phases, i, j - 1);
    }
  }

  lemma AwaitedKind(p: Program, steps: seq<Step>, phases: seq<Phase>, i: nat)
    requires Walk(p, steps, phases) && i < |steps|
    ensures steps[i].kind.ModelProposal? ==> !Investigating(phases[i])
    ensures steps[i].kind.ModelDecision? || steps[i].kind.ProtocolCorrection? ==> Investigating(phases[i])
  {
    assert Walk(p, steps[..i], phases[..i + 1]);
    WalkCounts(p, steps[..i], phases[..i + 1], SubmitRole);
    assert Moves(p, phases[i], steps[i], phases[i + 1]);
  }

  lemma NoModelReadAfterSupplement(p: Program, steps: seq<Step>, phases: seq<Phase>, i: nat, j: nat)
    requires Walk(p, steps, phases) && 0 < i < j < |steps| && BySupplement(p, steps, i)
    ensures !ByModel(p, steps, j)
  {
    if ByModel(p, steps, j) {
      AwaitedKind(p, steps, phases, i - 1);
      AwaitedKind(p, steps, phases, j - 1);
      InvestigationIsFirst(p, steps, phases, i - 1, j - 1);
    }
  }

  lemma ModelReadDiffers(queries: string -> string, p: Program, s: Snapshot, steps: seq<Step>, phases: seq<Phase>, i: nat, j: nat,
                         first: Content)
    requires Walk(p, steps, phases) && i < j < |steps| && Origin(queries, p, s, steps, i, first) && ByModel(p, steps, j)
    requires CheckAdmission(queries, p, s, steps[..j], steps[j].kind).Pass? && !steps[j - 1].result.content.name.ReadPolicyBundle?
    ensures first != steps[j - 1].result.content
  {
    if BySupplement(p, steps, i) {
      NoModelReadAfterSupplement(p, steps, phases, i, j);
    } else if ByStatus(p, steps, i) {
      ModelAfterStatus(queries, p, s, steps, i, j);
    } else if ByModel(p, steps, i) && !first.name.ReadPolicyBundle? {
      ModelAfterModel(queries, p, s, steps, i, j);
    }
  }

  lemma StatusReadDiffers(queries: string -> string, p: Program, s: Snapshot, steps: seq<Step>, i: nat, j: nat, first: Content)
    requires i < j < |steps| && Origin(queries, p, s, steps, i, first) && ByStatus(p, steps, j)
    requires RequestAt(queries, p, s, steps, j).Success?
    ensures first != SupplementTool(queries, "ticket_status")
  {
    StatusOnlyAfterModel(queries, p, s, steps, i, j);
  }

  lemma SupplementReadDiffers(queries: string -> string, p: Program, s: Snapshot, steps: seq<Step>, i: nat, topic: string, first: Content)
    requires DistinctQueries(queries) && Origin(queries, p, s, steps, i, first) && TopicAliases(topic) != []
    requires !BySupplement(p, steps, i) && (ByStatus(p, steps, i) ==> topic != "ticket_status")
    requires ByModel(p, steps, i) ==> AgentTool(s, steps[i - 1].result.content) != Some(SupplementTool(queries, topic))
    ensures first != SupplementTool(queries, topic)
  {
    if ByStatus(p, steps, i) {
      assert TopicAliases("ticket_status") != [] && queries(topic) != queries("ticket_status");
    }
  }

  lemma LaterReadIsNotTheBundle(queries: string -> string, p: Program, s: Snapshot, steps: seq<Step>, i: nat, j: nat, first: Content,
                                second: Content)
    requires i < j && Origin(queries, p, s, steps, i, first) && Origin(queries, p, s, steps, j, second)
    ensures ByModel(p, steps, j) || ByStatus(p, steps, j) || BySupplement(p, steps, j)
  {
  }

  lemma OriginsDiffer(queries: string -> string, p: Program, s: Snapshot, steps: seq<Step>, phases: seq<Phase>, i: nat, j: nat,
                      first: Content,
                      second: Content)
    requires DistinctQueries(queries) && Walk(p, steps, phases) && i < j < |steps| && IsTool(steps[i].kind)
    requires CheckAdmission(queries, p, s, steps[..j], steps[j].kind).Pass? && RequestAt(queries, p, s, steps, j).Success?
    requires Origin(queries, p, s, steps, i, first) && Origin(queries, p, s, steps, j, second)
    ensures first != second
  {
    LaterReadIsNotTheBundle(queries, p, s, steps, i, j, first, second);
    if ByStatus(p, steps, j) {
      StatusReadDiffers(queries, p, s, steps, i, j, first);
    } else if BySupplement(p, steps, j) {
      SupplementOnlyOnce(queries, p, s, steps, i, j);
      SupplementReadDiffers(queries, p, s, steps, i, steps[j - 1].result.content.topic, first);
    } else {
      ModelReadDiffers(queries, p, s, steps, phases, i, j, first);
    }
  }

  /**
    In an admitted agent history no two reads are made for the same request, whoever asked: the model,
    a policy supplement, the ticket's status or the bundle.
  */
  lemma NoToolRepeats(queries: string -> string, p: Program, s: Snapshot, steps: seq<Step>, fits: Proposal -> bool, i: nat, j: nat)
    requires p.Agent() && DistinctQueries(queries) && Admitted(queries, p, s, steps, fits)
    requires i < j < |steps| && IsTool(steps[i].kind) && IsTool(steps[j].kind)
    ensures RequestAt(queries, p, s, steps, i).Success? && RequestAt(queries, p, s, steps, j).Success?
    ensures RequestAt(queries, p, s, steps, i).value != RequestAt(queries, p, s, steps, j).value
  {
    ReadWasPending(queries, p, s, steps, fits, i);
    ReadWasPending(queries, p, s, steps, fits, j);
    RequestHasOrigin(queries, p, s, steps, i);
    RequestHasOrigin(queries, p, s, steps, j);
    AgentLanguage(queries, p, s, steps, fits);
    var phases :| Walk(p, steps, phases);
    var first, second := RequestAt(queries, p, s, steps, i).value, RequestAt(queries, p, s, steps, j).value;
    OriginsDiffer(queries, p, s, steps, phases, i, j, first, second);
  }
}
