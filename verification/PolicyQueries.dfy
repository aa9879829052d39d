/** The search text registered for each supplement topic (internal/run/policy_supplement.go:13-22). */
module PolicyQueries {
  import opened SupportSources
  import opened SupportProposal
  import opened CommitGraph
  import opened CommitLanguage

  function OpeningWord(topic: string): string {
    match topic
    case "timing" => "Compare"
    case "extended_delay" => "Outstanding"
    case "missing_facts" => "Missing"
    case "delivery_dispute" => "Delivered"
    case "structured_conflict" => "Authoritative"
    case "critical_exception" => "Active"
    case "carrier_correction" => "Explicit"
    case "ticket_status" => "Already"
    case _ => ""
  }

  function FurtherWords(topic: string): string {
    match topic
    case "timing" => " delivery timestamp or observation time with promised_delivery_at in UTC; on_time delayed fulfillment"
    case "extended_delay" => " undelivered order at least 48 hours after promise escalation threshold; completed late delivery"
    case "missing_facts" =>
      " related order delivery tracking event or vague complaint needing specific problem description clarification"
    case "delivery_dispute" => " but customer disputes receipt wrong address unauthorized recipient safe place"
    case "structured_conflict" =>
      " structured tracking contradiction same timestamp source key pre handover post delivery conflict"
    case "critical_exception" => " lost damaged returned_to_sender critical carrier exception escalation"
    case "carrier_correction" =>
      " carrier correction identifies erroneous event and supersedes it; ordinary later scans do not correct"
    case "ticket_status" => " informational_only ticket action none; already escalated preserve status no silent downgrade"
    case _ => ""
  }

  /** Each topic's opening word with what follows it. */
  function Queries(further: string -> string): string -> string {
    topic => OpeningWord(topic) + further(topic)
  }

  lemma OpeningWordsDiffer(t: string, u: string)
    requires TopicAliases(t) != [] && TopicAliases(u) != []
    requires OpeningWord(t)[..2] == OpeningWord(u)[..2]
    ensures t == u
  {
    assert OpeningWord(t)[0] == OpeningWord(t)[..2][0] && OpeningWord(t)[1] == OpeningWord(t)[..2][1];
    assert OpeningWord(u)[0] == OpeningWord(u)[..2][0] && OpeningWord(u)[1] == OpeningWord(u)[..2][1];
  }

  /** Two topics never share a text, whatever follows their opening words. */
  lemma OpeningWordsSuffice(further: string -> string)
    ensures DistinctQueries(Queries(further))
  {
    var queries := Queries(further);
    forall t, u | TopicAliases(t) != [] && TopicAliases(u) != [] && queries(t) == queries(u) ensures t == u {
      assert OpeningWord(t)[..2] == queries(t)[..2] == queries(u)[..2] == OpeningWord(u)[..2];
      OpeningWordsDiffer(t, u);
    }
  }

  function Registered(): string -> string {
    Queries(FurtherWords)
  }

  /** The registered topics have different search texts. */
  lemma RegisteredQueriesDistinct()
    ensures DistinctQueries(Registered())
  {
    OpeningWordsSuffice(FurtherWords);
  }

  /** With the registered texts no two reads of an admitted agent history are made for the same request. */
  lemma RegisteredReadsDiffer(p: Program, s: Snapshot, steps: seq<Step>, fits: Proposal -> bool, i: nat, j: nat)
    requires p.Agent() && Admitted(Registered(), p, s, steps, fits)
    requires i < j < |steps| && IsTool(steps[i].kind) && IsTool(steps[j].kind)
    ensures RequestAt(Registered(), p, s, steps, i).Success? && RequestAt(Registered(), p, s, steps, j).Success?
    ensures RequestAt(Registered(), p, s, steps, i).value != RequestAt(Registered(), p, s, steps, j).value
  {
    RegisteredQueriesDistinct();
    NoToolRepeats(Registered(), p, s, steps, fits, i, j);
  }
}
