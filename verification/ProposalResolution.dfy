/**
  From an approved proposal to the parameters that are signed (internal/run/action.go): whatever the compiler
  lets through as a proposal is a resolution the business store understands.
*/
module ProposalResolution {
  import opened Wrappers
  import opened Identity
  import P = SupportProposal
  import S = SupportSources
  import T = TicketResolution

  /** The eight fields of an accepted proposal; `text` encodes its claims. */
  function ParametersOf(ticketId: string, p: P.Proposal, text: seq<P.Claim> -> string): T.Parameters
    requires p.Support?
  {
    var v := p.verdict;
    T.Parameters(ticketId, v.decision, v.action, v.conclusion, v.requestedFields, v.target, p.summary, text(p.claims), p.evidenceRefs)
  }

  /** The claims are encoded as the store expects them, and all of it within its bound. */
  predicate Encodes(env: T.Env, p: T.Parameters) {
    env.claimsValid(p) && |env.parametersText(p)| <= 16384
  }

  /**
    A compiled answer that proposes something becomes valid parameters, and one that proposes nothing never
    does. So no approval of a proposal the graph accepted is refused for what it says.
  */
  lemma CompiledResolves(env: T.Env, s: S.Snapshot, prior: seq<S.StepRecord>, model: P.Model, repeatedSearch: bool, fits: P.Proposal -> bool,
                         text: seq<P.Claim> -> string)
    requires P.Compile(s, prior, model, repeatedSearch, fits).Success? && ValidIdentifier(s.ticketId)
    requires Encodes(env, ParametersOf(s.ticketId, P.Compile(s, prior, model, repeatedSearch, fits).value, text))
    ensures T.ValidParameters(env, ParametersOf(s.ticketId, P.Compile(s, prior, model, repeatedSearch, fits).value, text))
            <==> model.verdict.decision == "proposal"
  {
    var p := P.Compile(s, prior, model, repeatedSearch, fits).value;
    P.CompiledShape(s, prior, model, repeatedSearch, fits);
    P.SummaryLength(model.verdict, p.claims);
    P.EvidenceExact(p.claims);
    P.EvidenceHasFirst(p.claims);
  }

  /** The words the two packages allow are the same: a verdict that proposes is well formed exactly if its parameters are valid. */
  lemma VocabulariesAgree(env: T.Env, ticketId: string, p: P.Proposal, text: seq<P.Claim> -> string)
    requires p.Support? && p.verdict.decision == "proposal" && ValidIdentifier(ticketId)
    requires 1 <= |p.summary| <= 8192 && 1 <= |p.evidenceRefs| <= 32 && Encodes(env, ParametersOf(ticketId, p, text))
    requires P.Unique(p.verdict.requestedFields, 0, 5)
    requires forall i :: 0 <= i < |p.verdict.requestedFields| ==> p.verdict.requestedFields[i] in P.REQUESTABLE
    requires p.verdict.action == "request_information" ==> p.verdict.target == "awaiting_information"
    requires p.verdict.action == "escalate" ==> p.verdict.target == "escalated"
    ensures P.ValidVerdict(p.verdict) <==> T.ValidParameters(env, ParametersOf(ticketId, p, text))
  {
  }
}
