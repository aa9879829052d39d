/**
  Which step may follow which (internal/run/checkpoint.go, support_agent.go,
  policy_supplement.go, status_policy.go, policy_bundle.go). Step outputs are the envelopes the
  server itself accepted, so they arrive parsed.
*/
module CommitGraph {
  import opened Wrappers
  import opened Identity
  import RunModel
  import opened SupportSources
  import opened SupportProposal

  /** The registered programs: three strategies and, for adjudication, the frozen executor versions. */
  datatype Program =
    | Bounded | FixedHistorical | FixedAdjudication | FixedBundle
    | AgentHistorical | AgentAdjudication | AgentSupplement | AgentStatus | AgentBundle
    | Unregistered
  {
    predicate Agent() { AgentHistorical? || AgentAdjudication? || AgentSupplement? || AgentStatus? || AgentBundle? }
    predicate Fixed() { FixedHistorical? || FixedAdjudication? || FixedBundle? }
    predicate Adjudicates() { FixedAdjudication? || FixedBundle? || (Agent() && !AgentHistorical?) }
    predicate Supplements() { AgentSupplement? || AgentStatus? }
    predicate ReadsStatusPolicy() { AgentStatus? }
    predicate ReadsBundle() { FixedBundle? || AgentBundle? }
  }

  datatype StepResult = StepResult(toolInvocation: string, physicalCall: string, refs: seq<string>, content: Content,
                                   proposal: Option<Proposal>, correctionRequired: bool)

  datatype Step = Step(kind: StepKind, result: StepResult)

  datatype Decision = Decision(next: Option<StepKind>, proposal: Option<Proposal>)

  predicate IsModelStep(kind: StepKind) {
    kind == ModelProposal || kind == ModelDecision || kind == ProtocolCorrection
  }

  function Records(steps: seq<Step>): (records: seq<StepRecord>)
    ensures |records| == |steps|
  {
    seq(|steps|, i requires 0 <= i < |steps| => StepRecord(steps[i].kind, ToolResult(steps[i].result.refs, steps[i].result.content)))
  }

  ghost predicate ValidEnvelope(program: Program, r: StepResult) {
    && |r.refs| <= 32
    && (r.toolInvocation == "" || ValidUUID(r.toolInvocation)) && (r.physicalCall == "" || ValidUUID(r.physicalCall))
    && (r.proposal.Some? ==> if program.Bounded? then r.proposal.value.Plain? else ValidShape(r.proposal.value))
  }

  // ---------- prerequisites ----------

  predicate Contains(steps: seq<Step>, kind: StepKind) {
    exists i :: 0 <= i < |steps| && steps[i].kind == kind
  }

  ghost function CheckBundle(program: Program, s: Snapshot, prior: seq<Step>, kind: StepKind): Outcome<GraphError> {
    if !program.ReadsBundle() then Need(kind != ReadPolicyBundle && !Contains(prior, ReadPolicyBundle), StepConflict)
    else if kind == ReadTicket then Need(prior == [], StepConflict)
    else if prior == [] || prior[0].kind != ReadTicket then Fail(StepConflict)
    else if kind == ReadPolicyBundle then Need(|prior| == 1, StepConflict)
    else if |prior| < 2 || prior[1].kind != ReadPolicyBundle || Contains(prior[2..], ReadPolicyBundle) then Fail(StepConflict)
    else if !ValidEnvelope(program, prior[1].result) then Fail(InvalidArgument)
    else Need(ValidBundle(s, ToolResult(prior[1].result.refs, prior[1].result.content)), StepConflict)
  }

  predicate Blank(c: char) {
    c == ' ' || c == '\t' || c == '\r' || c == '\n'
  }

  function TrimLeft(text: string): string {
    if text != "" && Blank(text[0]) then TrimLeft(text[1..]) else text
  }

  function TrimRight(text: string): string {
    if text != "" && Blank(text[|text| - 1]) then TrimRight(text[..|text| - 1]) else text
  }

  /** The canonical tool decision a model's content stands for; the bundle is never a model's choice. */
  function AgentTool(s: Snapshot, c: Content): Option<Content> {
    if !c.ToolDecision? || !IsTool(c.name) || c.name == ReadPolicyBundle then None
    else if c.name == SearchPolicy then
      if !c.arguments.Query? || |c.arguments.text| > 512 then None
      else
        var query := TrimRight(TrimLeft(c.arguments.text));
        if query == "" then None else Some(ToolDecision(c.name, Query(query)))
    else if c.arguments.OrderId? && Bound(s) && c.arguments.id == s.ticket.orderId then Some(c) else None
  }

  function TopicAliases(topic: string): seq<string> {
    match topic
    case "timing" => ["P02.1", "P02.2"]
    case "extended_delay" => ["P07.1", "P07.2"]
    case "missing_facts" => ["P03.1", "P03.2"]
    case "delivery_dispute" => ["P04.1", "P04.2"]
    case "structured_conflict" => ["P05.1"]
    case "critical_exception" => ["P06.1"]
    case "carrier_correction" => ["P05.2", "P06.2"]
    case "ticket_status" => ["P08.1", "P08.2", "P09.1"]
    case _ => []
  }

  /** Byte order of strings. */
  predicate Before(a: string, b: string) {
    b != "" && (a == "" || a[0] < b[0] || (a[0] == b[0] && Before(a[1..], b[1..])))
  }

  predicate ValidSupplement(c: Content) {
    && c.Supplement? && 1 <= |c.aliases| <= |TopicAliases(c.topic)|
    && (forall i :: 0 <= i < |c.aliases| ==> c.aliases[i] in TopicAliases(c.topic))
    && (forall i :: 0 < i < |c.aliases| ==> Before(c.aliases[i - 1], c.aliases[i]))
  }

  /** The search a supplement stands for; `queries` is the registered text of each topic. */
  function SupplementTool(queries: string -> string, topic: string): Content {
    ToolDecision(SearchPolicy, Query(queries(topic)))
  }

  predicate Marker(step: Step) {
    && (step.kind == ModelDecision || step.kind == ProtocolCorrection)
    && step.result.proposal.None? && !step.result.correctionRequired && step.result.content.InvestigationComplete?
  }

  predicate StatusRead(prior: seq<Step>) {
    exists i :: 0 < i < |prior| && prior[i].kind == SearchPolicy && Marker(prior[i - 1])
  }

  /** An earlier model step that forbids asking for `tool` now: a proposal, an unreadable step or the same request. */
  predicate Blocks(s: Snapshot, step: Step, tool: Content) {
    && IsModelStep(step.kind)
    && (step.kind == ModelProposal
        || (!step.result.correctionRequired && !step.result.content.InvestigationComplete?
            && (AgentTool(s, step.result.content).None? || AgentTool(s, step.result.content).value == tool)))
  }

  function CheckSupplement(queries: string -> string, s: Snapshot, prior: seq<Step>, c: Content): Outcome<GraphError> {
    if !ValidSupplement(c) then Fail(ModelProtocol)
    else
      var sources := SourcesAfter(s, Records(prior), true);
      if sources.Failure? then Fail(sources.error)
      else if exists i :: 0 <= i < |c.aliases| && c.aliases[i] in sources.value.aliases then Fail(ModelProtocol)
      else if c.topic == "ticket_status" && StatusRead(prior) then Fail(ModelProtocol)
      else Need(forall i :: 0 <= i < |prior| ==> !Blocks(s, prior[i], SupplementTool(queries, c.topic)), ModelProtocol)
  }

  function SupplementSatisfied(s: Snapshot, prior: seq<Step>, c: Content): Outcome<GraphError> {
    if !ValidSupplement(c) then Fail(ModelProtocol)
    else
      var sources := SourcesAfter(s, Records(prior), true);
      if sources.Failure? then Fail(sources.error)
      else Need(forall i :: 0 <= i < |c.aliases| ==> c.aliases[i] in sources.value.aliases, ModelProtocol)
  }

  function StatusAlias(status: string): string {
    if status == "informational_only" then "P08.1" else if status == "escalated" then "P08.2" else ""
  }

  function MissingStatus(s: Snapshot, prior: seq<Step>): Result<Option<Content>, GraphError> {
    var alias := StatusAlias(s.ticket.status);
    if alias == "" then Success(None)
    else
      var sources :- SourcesAfter(s, Records(prior), true);
      if alias in sources.aliases then Success(None) else Success(Some(Supplement("ticket_status", [alias])))
  }

  function PendingStatus(queries: string -> string, s: Snapshot, prior: seq<Step>): Result<Content, GraphError> {
    if prior == [] || !Marker(prior[|prior| - 1]) then Failure(StepConflict)
    else
      var missing :- MissingStatus(s, prior);
      if missing.None? then Failure(StepConflict)
      else
        var check := CheckSupplement(queries, s, prior, missing.value);
        if check.Fail? then Failure(check.error) else Success(SupplementTool(queries, "ticket_status"))
  }

  function StatusSatisfied(queries: string -> string, s: Snapshot, prior: seq<Step>): Outcome<GraphError> {
    if |prior| < 2 || prior[|prior| - 1].kind != SearchPolicy then Fail(StepConflict)
    else
      var pending := PendingStatus(queries, s, prior[..|prior| - 1]);
      if pending.Failure? then Fail(pending.error)
      else
        var missing := MissingStatus(s, prior);
        if missing.Failure? then Fail(missing.error) else Need(missing.value.None?, ModelProtocol)
  }

  function PendingModelTool(s: Snapshot, prior: seq<Step>, kind: StepKind): Result<Content, GraphError> {
    if prior == [] then Failure(StepConflict)
    else
      var last := prior[|prior| - 1];
      var tool := AgentTool(s, last.result.content);
      if (last.kind != ModelDecision && last.kind != ProtocolCorrection) || last.result.proposal.Some?
         || last.result.correctionRequired || tool.None? || tool.value.name != kind || tool.value != last.result.content
      then Failure(StepConflict)
      else Success(tool.value)
  }

  ghost function PendingTool(queries: string -> string, program: Program, s: Snapshot, prior: seq<Step>, kind: StepKind)
    : Result<Content, GraphError>
  {
    if kind == ReadPolicyBundle then
      var check := CheckBundle(program, s, prior, kind);
      if !program.ReadsBundle() then Failure(StepConflict)
      else if check.Fail? then Failure(check.error) else Success(ToolDecision(kind, OrderId(None)))
    else if program.ReadsStatusPolicy() && prior != [] && Marker(prior[|prior| - 1]) then
      if kind != SearchPolicy then Failure(StepConflict) else PendingStatus(queries, s, prior)
    else if program.Supplements() && prior != [] && prior[|prior| - 1].kind == ModelProposal then
      var last := prior[|prior| - 1].result;
      if kind != SearchPolicy || last.proposal.Some? || last.correctionRequired then Failure(StepConflict)
      else
        var check := CheckSupplement(queries, s, prior[..|prior| - 1], last.content);
        if check.Fail? then Failure(check.error)
        else if last.content.Supplement? then Success(SupplementTool(queries, last.content.topic)) else Failure(ModelProtocol)
    else PendingModelTool(s, prior, kind)
  }

  ghost function AdjudicationPredecessor(queries: string -> string, program: Program, s: Snapshot, prior: seq<Step>): Outcome<GraphError> {
    if prior == [] then Fail(StepConflict)
    else
      var missing := MissingStatus(s, prior);
      if program.ReadsStatusPolicy() && missing.Failure? then Fail(missing.error)
      else if program.ReadsStatusPolicy() && missing.value.Some? then Fail(ModelProtocol)
      else if program.ReadsStatusPolicy() && |prior| >= 2 && Marker(prior[|prior| - 2]) then StatusSatisfied(queries, s, prior)
      else
        var last := prior[|prior| - 1];
        if last.result.proposal.Some? || last.result.correctionRequired then Fail(StepConflict)
        else if Marker(last) then Pass
        else if !program.Supplements() || last.kind != SearchPolicy || |prior| < 2 then Fail(StepConflict)
        else
          var pending := PendingTool(queries, program, s, prior[..|prior| - 1], last.kind);
          if pending.Failure? then Fail(pending.error)
          else SupplementSatisfied(s, prior, prior[|prior| - 2].result.content)
  }

  // ---------- proposals ----------

  function DecisionOf(p: Proposal): string {
    if p.Plain? then p.decision else p.verdict.decision
  }

  function ActionOf(p: Proposal): string {
    if p.Plain? then p.action else p.verdict.action
  }

  ghost predicate Allowed(s: Snapshot, prior: seq<Step>, ref: string) {
    || ref == EvidenceRef(s, "ticket")
    || exists i :: 0 <= i < |prior| && (IsTool(prior[i].kind) || prior[i].kind == ReadTicket) && ref in prior[i].result.refs
  }

  ghost predicate ValidProposal(s: Snapshot, prior: seq<Step>, proposal: Option<Proposal>) {
    && proposal.Some?
    && var p := proposal.value;
    && 1 <= |p.summary| <= 8192 && 1 <= |p.evidenceRefs| <= 32
    && (DecisionOf(p) == "no_action" || DecisionOf(p) == "proposal")
    && (DecisionOf(p) == "no_action" ==> ActionOf(p) == "")
    && (DecisionOf(p) == "proposal" ==> ActionOf(p) in {"record_conclusion", "request_information", "escalate"})
    && (forall ref :: ref in p.evidenceRefs ==> Allowed(s, prior, ref)) && DistinctSeq(p.evidenceRefs)
  }

  // ---------- the decision ----------

  ghost function DecideTicket(program: Program, s: Snapshot, r: StepResult): Result<Decision, GraphError> {
    if r.physicalCall != "" || r.toolInvocation != "" || r.proposal.Some? || r.correctionRequired
       || r.refs != [EvidenceRef(s, "ticket")] || r.content != TicketContent(s.ticket) then Failure(StepConflict)
    else
      var next := if program.ReadsBundle() then ReadPolicyBundle else if program.Agent() then ModelDecision else GetOrder;
      Success(Decision(Some(next), None))
  }

  function FixedNext(program: Program, kind: StepKind, missing: bool): StepKind {
    if program.FixedBundle? then
      match kind
      case ReadPolicyBundle => GetOrder
      case GetOrder => if missing then ModelProposal else GetDelivery
      case _ => ModelProposal
    else
      match kind
      case GetOrder => if missing then SearchPolicy else GetDelivery
      case GetDelivery => SearchPolicy
      case _ => ModelProposal
  }

  ghost function AgentToolNext(queries: string -> string, program: Program, s: Snapshot, prior: seq<Step>, step: Step)
    : Result<StepKind, GraphError>
  {
    var pending := PendingTool(queries, program, s, prior, step.kind);
    if pending.Failure? then Failure(pending.error)
    else if prior == [] then Failure(StepConflict)
    else
      var last, withResult := prior[|prior| - 1], prior + [step];
      var status := program.ReadsStatusPolicy() && Marker(last);
      var supplement := program.Supplements() && last.kind == ModelProposal;
      var statusCheck, supplementCheck := StatusSatisfied(queries, s, withResult), SupplementSatisfied(s, withResult, last.result.content);
      if status && statusCheck.Fail? then Failure(statusCheck.error)
      else if supplement && supplementCheck.Fail? then Failure(supplementCheck.error)
      else Success(if status || supplement then ModelProposal else ModelDecision)
  }

  ghost function DecideTool(queries: string -> string, program: Program, s: Snapshot, prior: seq<Step>, step: Step)
    : Result<Decision, GraphError>
  {
    var r, tool := step.result, ToolResult(step.result.refs, step.result.content);
    if r.physicalCall == "" || r.toolInvocation == "" || r.proposal.Some? || r.correctionRequired || !ToolEvidence(s, step.kind, tool)
    then Failure(StepConflict)
    else if program.Bounded? then Success(Decision(Some(FixedNext(program, step.kind, false)), None))
    else
      var missing :- SupportTool(s, step.kind, tool);
      if program.Fixed() then Success(Decision(Some(FixedNext(program, step.kind, missing)), None))
      else
        var next :- AgentToolNext(queries, program, s, prior, step);
        Success(Decision(Some(next), None))
  }

  /** The last step's proposal, repeated word for word. */
  ghost predicate Repeats(prior: seq<Step>, kinds: set<StepKind>, proposal: Option<Proposal>) {
    && prior != [] && prior[|prior| - 1].kind in kinds && prior[|prior| - 1].result.proposal.Some?
    && prior[|prior| - 1].result.proposal == proposal
  }

  function Conclude(kind: StepKind, proposal: Option<Proposal>): Decision {
    Decision(if kind == SubmitProposal then None else Some(SubmitProposal), proposal)
  }

  ghost function DecideFixed(program: Program, s: Snapshot, prior: seq<Step>, step: Step, fits: Proposal -> bool)
    : Result<Decision, GraphError>
  {
    var r, kind := step.result, step.kind;
    if kind != ModelProposal && kind != ProtocolCorrection && kind != SubmitProposal then Failure(InvalidArgument)
    else if r.toolInvocation != "" || !r.content.NullContent? || r.refs != [] then Failure(StepConflict)
    else if kind == SubmitProposal
            && (r.physicalCall != "" || r.correctionRequired || !Repeats(prior, {ModelProposal, ProtocolCorrection}, r.proposal))
    then Failure(StepConflict)
    else if kind != SubmitProposal && r.physicalCall == "" then Failure(StepConflict)
    else if r.correctionRequired then
      if kind != ModelProposal || r.proposal.Some? || program.Adjudicates() then Failure(ModelProtocol)
      else Success(Decision(Some(ProtocolCorrection), None))
    else if !ValidProposal(s, prior, r.proposal) then Failure(ModelProtocol)
    else if program.Fixed() && !Accepted(s, Records(prior), r.proposal, false, fits) then Failure(ModelProtocol)
    else Success(Conclude(kind, r.proposal))
  }

  ghost function DecideSupplement(queries: string -> string, program: Program, s: Snapshot, prior: seq<Step>, r: StepResult)
    : Result<Decision, GraphError>
  {
    var check := CheckSupplement(queries, s, prior, r.content);
    if !program.Supplements() || r.proposal.Some? then Failure(ModelProtocol)
    else if check.Fail? then Failure(check.error)
    else if r.physicalCall == "" then Failure(StepConflict)
    else Success(Decision(Some(SearchPolicy), None))
  }

  ghost function DecideMarker(queries: string -> string, program: Program, s: Snapshot, prior: seq<Step>, step: Step)
    : Result<Decision, GraphError>
  {
    if !program.ReadsStatusPolicy() then Success(Decision(Some(ModelProposal), None))
    else
      var missing :- MissingStatus(s, prior);
      if missing.None? then Success(Decision(Some(ModelProposal), None))
      else
        var _ :- PendingStatus(queries, s, prior + [step]);
        Success(Decision(Some(SearchPolicy), None))
  }

  ghost function DecideAgent(queries: string -> string, program: Program, s: Snapshot, prior: seq<Step>, step: Step, fits: Proposal -> bool)
    : Result<Decision, GraphError>
  {
    var r, kind := step.result, step.kind;
    var predecessor := AdjudicationPredecessor(queries, program, s, prior);
    var submitted := if program.Adjudicates() then {ModelProposal} else {ModelDecision, ProtocolCorrection};
    if kind != ModelDecision && kind != ProtocolCorrection && kind != SubmitProposal
       && (!program.Adjudicates() || kind != ModelProposal) then Failure(StepConflict)
    else if r.toolInvocation != "" || r.refs != [] then Failure(StepConflict)
    else if kind == ModelProposal && r.correctionRequired then Failure(ModelProtocol)
    else if kind == ModelProposal && predecessor.Fail? then Failure(predecessor.error)
    else if kind == ModelProposal && !r.content.NullContent? then DecideSupplement(queries, program, s, prior, r)
    else if kind == SubmitProposal
            && (r.physicalCall != "" || r.correctionRequired || !r.content.NullContent? || !Repeats(prior, submitted, r.proposal))
    then Failure(StepConflict)
    else if kind != SubmitProposal && r.physicalCall == "" then Failure(StepConflict)
    else if r.correctionRequired then
      if kind != ModelDecision || r.proposal.Some? || !r.content.NullContent? || Contains(prior, ProtocolCorrection)
      then Failure(ModelProtocol)
      else Success(Decision(Some(ProtocolCorrection), None))
    else if !r.content.NullContent? then
      if program.Adjudicates() && Marker(step) then DecideMarker(queries, program, s, prior, step)
      else if AgentTool(s, r.content) != Some(r.content) || r.proposal.Some? then Failure(ModelProtocol)
      else Success(Decision(Some(r.content.name), None))
    else if program.Adjudicates() && kind != ModelProposal && kind != SubmitProposal then Failure(ModelProtocol)
    else if !ValidProposal(s, prior, r.proposal) || !Accepted(s, Records(prior), r.proposal, true, fits) then Failure(ModelProtocol)
    else Success(Conclude(kind, r.proposal))
  }

  /** What refuses a step before its own content is looked at. */
  ghost function Refusal(program: Program, s: Snapshot, prior: seq<Step>, step: Step): Option<GraphError> {
    var bundle := CheckBundle(program, s, prior, step.kind);
    if program.Unregistered? then Some(ProfileUnavailable)
    else if !ValidEnvelope(program, step.result) then Some(InvalidArgument)
    else if bundle.Fail? then Some(bundle.error)
    else if exists i :: 0 <= i < |prior| && !ValidEnvelope(program, prior[i].result) then Some(InternalError)
    else None
  }

  /** DecideCommit after the request has been found to carry the Run's profile and the hash of its own content. */
  ghost function Decide(queries: string -> string, program: Program, s: Snapshot, prior: seq<Step>, step: Step, fits: Proposal -> bool)
    : Result<Decision, GraphError>
  {
    var refusal := Refusal(program, s, prior, step);
    if refusal.Some? then Failure(refusal.value)
    else if step.kind.ReadTicket? then DecideTicket(program, s, step.result)
    else if IsTool(step.kind) then DecideTool(queries, program, s, prior, step)
    else if program.Agent() then DecideAgent(queries, program, s, prior, step, fits)
    else DecideFixed(program, s, prior, step, fits)
  }

  datatype Request = Request(identity: StepIdentity, result: StepResult, canonical: string, commitHash: string)

  /** The registered name of a kind, as it is hashed and stored. */
  function KindText(kind: StepKind): string {
    match kind
    case ReadTicket => "read_ticket"
    case GetOrder => "get_order"
    case GetDelivery => "get_delivery"
    case SearchPolicy => "search_policy"
    case ReadPolicyBundle => "read_policy_bundle"
    case ModelProposal => "model_proposal"
    case ModelDecision => "model_decision"
    case ProtocolCorrection => "protocol_correction"
    case SubmitProposal => "submit_proposal"
    case ApplyTicketResolution => RunModel.RESOLUTION_OPERATION
    case OtherKind(text) => text
  }

  function ParseKind(text: string): StepKind {
    match text
    case "read_ticket" => ReadTicket
    case "get_order" => GetOrder
    case "get_delivery" => GetDelivery
    case "search_policy" => SearchPolicy
    case "read_policy_bundle" => ReadPolicyBundle
    case "model_proposal" => ModelProposal
    case "model_decision" => ModelDecision
    case "protocol_correction" => ProtocolCorrection
    case "submit_proposal" => SubmitProposal
    case _ => if text == RunModel.RESOLUTION_OPERATION then ApplyTicketResolution else OtherKind(text)
  }

  /** The server's whole check of a commit: profile, envelope, content hash, then the graph. */
  ghost function DecideCommit(h: string -> string, queries: string -> string, profileId: string, profileHash: string, program: Program,
                              s: Snapshot, prior: seq<Step>, req: Request, fits: Proposal -> bool): Result<Decision, GraphError>
  {
    if program.Unregistered? || profileId != req.identity.profileId || profileHash != req.identity.profileHash
    then Failure(ProfileUnavailable)
    else if !ValidEnvelope(program, req.result) then Failure(InvalidArgument)
    else if req.commitHash != CommitHash(h, req.identity, req.canonical) then Failure(StepConflict)
    else Decide(queries, program, s, prior, Step(ParseKind(req.identity.kind), req.result), fits)
  }

  // ---------- every decision ----------

  predicate InGraph(kind: StepKind) {
    IsTool(kind) || IsModelStep(kind) || kind == SubmitProposal
  }

  /** Closing with the step's own proposal exactly on submit_proposal, and otherwise going on to a kind of the graph. */
  predicate Coherent(step: Step, d: Decision) {
    && (d.next.None? <==> step.kind == SubmitProposal)
    && (d.next.None? ==> d.proposal.Some? && d.proposal == step.result.proposal)
    && (d.next.Some? ==> InGraph(d.next.value))
  }

  lemma FixedNextInGraph(program: Program, kind: StepKind, missing: bool)
    requires IsTool(kind)
    ensures InGraph(FixedNext(program, kind, missing))
  {
  }

  lemma ToolCoherent(queries: string -> string, program: Program, s: Snapshot, prior: seq<Step>, step: Step)
    requires IsTool(step.kind) && DecideTool(queries, program, s, prior, step).Success?
    ensures Coherent(step, DecideTool(queries, program, s, prior, step).value)
  {
    FixedNextInGraph(program, step.kind, true);
    FixedNextInGraph(program, step.kind, false);
  }

  lemma FixedCoherent(program: Program, s: Snapshot, prior: seq<Step>, step: Step, fits: Proposal -> bool)
    requires DecideFixed(program, s, prior, step, fits).Success?
    ensures Coherent(step, DecideFixed(program, s, prior, step, fits).value)
  {
  }

  lemma AgentCoherent(queries: string -> string, program: Program, s: Snapshot, prior: seq<Step>, step: Step, fits: Proposal -> bool)
    requires DecideAgent(queries, program, s, prior, step, fits).Success?
    ensures Coherent(step, DecideAgent(queries, program, s, prior, step, fits).value)
  {
  }

  lemma GraphKindsRegistered(kind: StepKind)
    requires InGraph(kind)
    ensures RunModel.ValidStepKind(KindText(kind)) && KindText(kind) != RunModel.RESOLUTION_OPERATION
  {
  }

  /** An accepted decision either closes with a proposal, exactly on submit_proposal, or names a registered next kind. */
  lemma DecisionWellFormed(queries: string -> string, program: Program, s: Snapshot, prior: seq<Step>, step: Step, fits: Proposal -> bool)
    requires Decide(queries, program, s, prior, step, fits).Success?
    ensures var d := Decide(queries, program, s, prior, step, fits).value;
            Coherent(step, d) && (d.next.Some? ==> RunModel.ValidStepKind(KindText(d.next.value)) && KindText(d.next.value) != RunModel.RESOLUTION_OPERATION)
  {
    var d := Decide(queries, program, s, prior, step, fits).value;
    if step.kind != ReadTicket {
      if IsTool(step.kind) {
        ToolCoherent(queries, program, s, prior, step);
      } else if program.Agent() {
        AgentCoherent(queries, program, s, prior, step, fits);
      } else {
        FixedCoherent(program, s, prior, step, fits);
      }
    }
    if d.next.Some? {
      GraphKindsRegistered(d.next.value);
    }
  }

  lemma ResolutionRefused(queries: string -> string, program: Program, s: Snapshot, prior: seq<Step>, step: Step, fits: Proposal -> bool)
    requires step.kind.ApplyTicketResolution?
    ensures Decide(queries, program, s, prior, step, fits).Failure?
  {
  }

  lemma KindRoundTrip(kind: StepKind)
    requires InGraph(kind) || kind.ReadTicket? || kind.ApplyTicketResolution?
    ensures ParseKind(KindText(kind)) == kind
  {
  }

  /** The write operation is never decided by this graph, whatever the program and the history. */
  lemma ResolutionNeverCommits(h: string -> string, queries: string -> string, profileId: string, profileHash: string, program: Program,
                               s: Snapshot, prior: seq<Step>, req: Request, fits: Proposal -> bool)
    requires req.identity.kind == RunModel.RESOLUTION_OPERATION
    ensures DecideCommit(h, queries, profileId, profileHash, program, s, prior, req, fits).Failure?
  {
    KindRoundTrip(ApplyTicketResolution);
    ResolutionRefused(queries, program, s, prior, Step(ApplyTicketResolution, req.result), fits);
  }

  // ---------- the worker reads what was committed ----------

  /** The worker has no profile: it takes a result for a support result by its proposal, or by its kind and content. */
  predicate ReadAsSupport(kind: StepKind, r: StepResult, typed: bool) {
    (r.proposal.Some? && r.proposal.value.Support?) || kind.ModelDecision? || (kind.ProtocolCorrection? && typed)
  }

  /** Whatever program committed a result, the worker's choice of format accepts it; `typed` says whether its content carries a type. */
  lemma CommittedIsReadable(queries: string -> string, program: Program, s: Snapshot, prior: seq<Step>, step: Step, fits: Proposal -> bool,
                            typed: bool)
    requires Decide(queries, program, s, prior, step, fits).Success? && (typed ==> !step.result.content.NullContent?)
    ensures ValidEnvelope(if ReadAsSupport(step.kind, step.result, typed) then FixedHistorical else Bounded, step.result)
  {
  }
}
