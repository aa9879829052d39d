/**
  Turning a model's aliases into source locations and back (internal/run/support.go,
  internal/run/support_sources.go). The compiler expands every alias; the validator reverses a
  persisted proposal into aliases, compiles those again and demands the same proposal.
  `fits` decides the encoded-size bound, whose byte count is not modelled.
*/
module SupportProposal {
  import opened Wrappers
  import opened Identity
  import opened SupportSources

  datatype ClaimFields =
    | Timing(test: string, eventId: string)
    | Dispute(dispute: string, deliveredEventId: string)
    | Critical(status: string, eventId: string)
    | Missing(field: string)
    | Conflict(conflict: string, eventIds: seq<string>)
    | Correction(recoveryEventId: string, correctedEventId: string)
    | TicketStatus(mode: string)

  datatype Claim = Claim(fields: ClaimFields, refs: seq<Source>)

  datatype ModelClaim = ModelClaim(fields: ClaimFields, aliases: seq<string>)

  datatype Verdict = Verdict(decision: string, action: string, conclusion: string, requestedFields: seq<string>, target: string)

  /** What a model may say. */
  datatype Model = Model(verdict: Verdict, claims: seq<ModelClaim>)

  /** What is persisted; the historical form has no support part. */
  datatype Proposal =
    | Plain(decision: string, action: string, summary: string, evidenceRefs: seq<string>)
    | Support(verdict: Verdict, summary: string, evidenceRefs: seq<string>, claims: seq<Claim>)

  const REQUESTABLE := ["ticket.order_id", "order.delivery_id", "delivery.usable_tracking_events", "delivery.delivered_event",
                        "ticket.problem_description"]

  predicate Unique(values: seq<string>, minimum: nat, maximum: nat) {
    && minimum <= |values| <= maximum
    && (forall i :: 0 <= i < |values| ==> values[i] != "")
    && (forall i, j :: 0 <= i < j < |values| ==> values[i] != values[j])
  }

  predicate ValidVerdict(v: Verdict) {
    && (v.decision == "proposal" || v.decision == "no_action") && (v.decision == "no_action" ==> v.action == "")
    && (v.decision == "proposal" ==> v.action in {"record_conclusion", "request_information", "escalate"})
    && v.conclusion in {"on_time", "delayed", "disputed", "insufficient", "conflicting"}
    && v.target in {"open", "awaiting_information", "escalated", "informational_only"}
    && Unique(v.requestedFields, 0, 5) && forall i :: 0 <= i < |v.requestedFields| ==> v.requestedFields[i] in REQUESTABLE
  }

  predicate ValidClaim(c: ClaimFields) {
    match c
    case Timing(test, id) =>
      && test in {"delivered_not_late", "delivered_late", "outstanding_not_overdue", "outstanding_overdue_lt48", "outstanding_overdue_ge48"}
      && ValidIdentifier(id)
    case Dispute(d, id) => d in {"non_receipt", "wrong_address", "unauthorized_recipient", "unauthorized_safe_place"} && ValidIdentifier(id)
    case Critical(status, id) => status in {"lost", "damaged", "returned_to_sender"} && ValidIdentifier(id)
    case Missing(field) => field in REQUESTABLE
    case Conflict(kind, ids) =>
      && kind in {"pre_handover", "same_time", "source_key", "post_delivery", "order_delivery"}
      && (var count := if kind == "order_delivery" then 0 else 2; Unique(ids, count, count))
      && forall i :: 0 <= i < |ids| ==> ValidIdentifier(ids[i])
    case Correction(recovery, corrected) => ValidIdentifier(recovery) && ValidIdentifier(corrected) && recovery != corrected
    case TicketStatus(mode) => mode in {"informational_no_action", "preserve_escalated"}
  }

  function EventIds(c: ClaimFields): seq<string> {
    match c
    case Timing(_, id) => [id]
    case Critical(_, id) => [id]
    case Dispute(_, id) => [id]
    case Conflict(_, ids) => ids
    case Correction(recovery, corrected) => [recovery, corrected]
    case Missing(_) => []
    case TicketStatus(_) => []
  }

  predicate IsPolicy(source: Source) {
    "business-policy:" <= source.ref
  }

  // ---------- compiling ----------

  function AppendUnique<T(==)>(list: seq<T>, item: T): seq<T> {
    if item in list then list else list + [item]
  }

  /** Looks every key up and appends what it finds unless already there; one unknown key fails the whole. */
  function AppendAll(start: seq<Source>, table: map<string, Source>, keys: seq<string>): Option<seq<Source>> {
    if keys == [] then Some(start)
    else
      var rest := AppendAll(start, table, keys[..|keys| - 1]);
      var last := keys[|keys| - 1];
      if rest.None? || last !in table then None else Some(AppendUnique(rest.value, table[last]))
  }

  function ExpandClaim(src: Sources, claim: ModelClaim): Option<Claim> {
    if !ValidClaim(claim.fields) || !Unique(claim.aliases, 1, 8) then None
    else
      var own := AppendAll([], src.aliases, claim.aliases);
      if own.None? || !(exists r :: r in own.value && IsPolicy(r)) then None
      else
        var all := AppendAll(own.value, src.events, EventIds(claim.fields));
        if all.None? then None else Some(Claim(claim.fields, all.value))
  }

  /** Two claims are the same when they say the same about the same set of sources. */
  function ClaimIdentity(c: Claim): (ClaimFields, set<Source>) {
    (c.fields, set r | r in c.refs)
  }

  function ExpandClaims(src: Sources, claims: seq<ModelClaim>): Option<seq<Claim>> {
    if claims == [] then Some([])
    else
      var rest := ExpandClaims(src, claims[..|claims| - 1]);
      var last := ExpandClaim(src, claims[|claims| - 1]);
      if rest.None? || last.None? || (exists c :: c in rest.value && ClaimIdentity(c) == ClaimIdentity(last.value)) then None
      else Some(rest.value + [last.value])
  }

  function AppendRefs(list: seq<string>, sources: seq<Source>): seq<string> {
    if sources == [] then list
    else AppendUnique(AppendRefs(list, sources[..|sources| - 1]), sources[|sources| - 1].ref)
  }

  function EvidenceOf(claims: seq<Claim>): seq<string> {
    if claims == [] then [] else AppendRefs(EvidenceOf(claims[..|claims| - 1]), claims[|claims| - 1].refs)
  }

  function Join(parts: seq<string>, separator: string): string {
    if parts == [] then "" else if |parts| == 1 then parts[0]
    else Join(parts[..|parts| - 1], separator) + separator + parts[|parts| - 1]
  }

  function Describe(c: ClaimFields): string {
    match c
    case Timing(test, id) => "timing " + test + "; event " + id
    case Dispute(d, id) => "dispute " + d + "; delivered event " + id
    case Critical(status, id) => "critical " + status + "; event " + id
    case Missing(field) => "missing " + field
    case Conflict(kind, ids) => "conflict " + kind + "; events [" + Join(ids, ", ") + "]"
    case Correction(recovery, corrected) => "correction; recovery event " + recovery + "; corrected event " + corrected
    case TicketStatus(mode) => "ticket_status " + mode
  }

  function HeadlineText(action: string, conclusion: string, target: string, fields: string): (text: string)
    ensures |text| == 87 + |action| + |conclusion| + |target| + |fields|
  {
    "Recommendation: " + action + ". Conclusion asserted: " + conclusion + ". Suggested ticket status: " + target
    + ". Requested fields: " + fields + "."
  }

  function Headline(v: Verdict): string {
    HeadlineText(if v.decision == "no_action" then "no_action" else v.action, v.conclusion, v.target,
                 if v.requestedFields == [] then "none" else Join(v.requestedFields, ", "))
  }

  function Lines(v: Verdict, claims: seq<Claim>): (lines: seq<string>)
    ensures |lines| == 1 + |claims|
  {
    if claims == [] then [Headline(v)]
    else Lines(v, claims[..|claims| - 1]) + ["Claim asserted: " + Describe(claims[|claims| - 1].fields) + "."]
  }

  function Summary(v: Verdict, claims: seq<Claim>): string {
    Join(Lines(v, claims), "\n")
  }

  predicate TargetMatches(v: Verdict, current: string) {
    v.target == (if v.action == "request_information" then "awaiting_information"
                 else if v.action == "escalate" then "escalated" else current)
  }

  function Compiled(v: Verdict, claims: seq<Claim>): Proposal {
    Support(v, Summary(v, claims), EvidenceOf(claims), claims)
  }

  function Compile(s: Snapshot, prior: seq<StepRecord>, model: Model, repeatedSearch: bool, fits: Proposal -> bool)
    : Result<Proposal, GraphError>
  {
    if !ValidVerdict(model.verdict) || !(1 <= |model.claims| <= 4) then Failure(ModelProtocol)
    else
      var src :- SourcesAfter(s, prior, repeatedSearch);
      var claims := ExpandClaims(src, model.claims);
      if claims.None? then Failure(ModelProtocol)
      else
        var proposal := Compiled(model.verdict, claims.value);
        if !TargetMatches(model.verdict, s.ticket.status) || |proposal.evidenceRefs| > 32 then Failure(ModelProtocol)
        else if !fits(proposal) then Failure(TooLarge) else Success(proposal)
  }

  // ---------- decompiling ----------

  ghost function AliasOf(aliases: map<string, Source>, source: Source): Option<string> {
    if a :| a in aliases && aliases[a] == source then Some(a) else None
  }

  ghost function Collect(aliases: map<string, Source>, refs: seq<Source>): seq<string> {
    if refs == [] then []
    else
      var rest, last := Collect(aliases, refs[..|refs| - 1]), AliasOf(aliases, refs[|refs| - 1]);
      if last.Some? then rest + [last.value] else rest
  }

  predicate EventOf(events: map<string, Source>, ids: seq<string>, source: Source) {
    exists i :: 0 <= i < |ids| && ids[i] in events && events[ids[i]] == source
  }

  /** A source with an alias, or the source of one of the claim's own events. */
  ghost predicate Recoverable(src: Sources, ids: seq<string>, source: Source) {
    AliasOf(src.aliases, source).Some? || EventOf(src.events, ids, source)
  }

  ghost predicate Reversible(src: Sources, claim: Claim) {
    && (forall i :: 0 <= i < |EventIds(claim.fields)| ==> EventIds(claim.fields)[i] in src.events)
    && forall j :: 0 <= j < |claim.refs| ==> Recoverable(src, EventIds(claim.fields), claim.refs[j])
  }

  ghost function Decompiled(src: Sources, claims: seq<Claim>): seq<ModelClaim> {
    if claims == [] then []
    else
      var last := claims[|claims| - 1];
      Decompiled(src, claims[..|claims| - 1]) + [ModelClaim(last.fields, Collect(src.aliases, last.refs))]
  }

  ghost predicate Accepted(s: Snapshot, prior: seq<StepRecord>, proposal: Option<Proposal>, repeatedSearch: bool, fits: Proposal -> bool) {
    var built := SourcesAfter(s, prior, repeatedSearch);
    && built.Success? && proposal.Some? && proposal.value.Support?
    && (forall i :: 0 <= i < |proposal.value.claims| ==> Reversible(built.value, proposal.value.claims[i]))
    && Compile(s, prior, Model(proposal.value.verdict, Decompiled(built.value, proposal.value.claims)), repeatedSearch, fits)
       == Success(proposal.value)
  }

  // ---------- the compiler and the validator undo each other ----------

  /** The first sources are where the keys point, key by key. */
  predicate Locates(table: map<string, Source>, keys: seq<string>, sources: seq<Source>) {
    |keys| <= |sources| && forall i :: 0 <= i < |keys| ==> keys[i] in table && sources[i] == table[keys[i]]
  }

  ghost predicate Injective(table: map<string, Source>) {
    forall a, b :: a in table && b in table && table[a] == table[b] ==> a == b
  }

  lemma KnownInjective(s: Snapshot, aliases: map<string, Source>)
    requires AllKnown(s, aliases)
    ensures Injective(aliases)
  {
    forall a, b | a in aliases && b in aliases && aliases[a] == aliases[b] ensures a == b {
      AliasesInjective(s, a, b, aliases[a]);
    }
  }

  lemma NotYetLocated(aliases: map<string, Source>, keys: seq<string>, key: string, sources: seq<Source>)
    requires Injective(aliases) && |sources| == |keys| && Locates(aliases, keys, sources) && key in aliases
    requires forall i :: 0 <= i < |keys| ==> keys[i] != key
    ensures aliases[key] !in sources
  {
    forall i | 0 <= i < |keys| ensures sources[i] != aliases[key] {
      assert keys[i] in aliases;
    }
  }

  /** Distinct aliases are all kept, in order. */
  lemma {:induction false} OwnSources(aliases: map<string, Source>, keys: seq<string>)
    requires Injective(aliases) && AppendAll([], aliases, keys).Some?
    requires forall i, j :: 0 <= i < j < |keys| ==> keys[i] != keys[j]
    ensures var own := AppendAll([], aliases, keys).value;
            |own| == |keys| && Locates(aliases, keys, own)
  {
    if keys != [] {
      var n := |keys| - 1;
      OwnSources(aliases, keys[..n]);
      var rest := AppendAll([], aliases, keys[..n]).value;
      NotYetLocated(aliases, keys[..n], keys[n], rest);
      assert AppendAll([], aliases, keys).value == rest + [aliases[keys[n]]];
    }
  }

  lemma EventOfGrows(events: map<string, Source>, ids: seq<string>, id: string, source: Source)
    requires EventOf(events, ids, source)
    ensures EventOf(events, ids + [id], source)
  {
    var i :| 0 <= i < |ids| && ids[i] in events && events[ids[i]] == source;
    assert (ids + [id])[i] == ids[i];
  }

  /** Everything an event list appends is one of its own sources, after what was there before. */
  lemma {:induction false} EventSources(start: seq<Source>, events: map<string, Source>, ids: seq<string>)
    requires AppendAll(start, events, ids).Some?
    ensures var all := AppendAll(start, events, ids).value;
            && start <= all && |all| <= |start| + |ids|
            && (forall i :: 0 <= i < |ids| ==> ids[i] in events)
            && forall j :: |start| <= j < |all| ==> EventOf(events, ids, all[j])
  {
    if ids != [] {
      var n := |ids| - 1;
      EventSources(start, events, ids[..n]);
      var before, all := AppendAll(start, events, ids[..n]).value, AppendAll(start, events, ids).value;
      assert ids == ids[..n] + [ids[n]];
      forall j | |start| <= j < |all| ensures EventOf(events, ids, all[j]) {
        if j < |before| {
          EventOfGrows(events, ids[..n], ids[n], before[j]);
        } else {
          assert events[ids[n]] == all[j];
        }
      }
    }
  }

  lemma AliasOfKnown(aliases: map<string, Source>, a: string)
    requires Injective(aliases) && a in aliases
    ensures AliasOf(aliases, aliases[a]) == Some(a)
  {
    var b := AliasOf(aliases, aliases[a]).value;
    assert b in aliases && aliases[b] == aliases[a];
  }

  lemma EventHasNoAlias(s: Snapshot, aliases: map<string, Source>, source: Source)
    requires AllKnown(s, aliases) && EventSource(s, source)
    ensures AliasOf(aliases, source).None?
  {
    forall a | a in aliases ensures aliases[a] != source {
      EventsAreNotAliased(s, a, aliases[a]);
    }
  }

  lemma CollectSnoc(aliases: map<string, Source>, refs: seq<Source>, last: Source)
    ensures Collect(aliases, refs + [last])
            == if AliasOf(aliases, last).Some? then Collect(aliases, refs) + [AliasOf(aliases, last).value] else Collect(aliases, refs)
  {
    assert (refs + [last])[..|refs|] == refs;
  }

  /** Reversing a list made of located aliases and then event sources gives the aliases back. */
  lemma {:induction false} CollectUndoes(aliases: map<string, Source>, keys: seq<string>, refs: seq<Source>)
    requires Injective(aliases) && Locates(aliases, keys, refs)
    requires forall j :: |keys| <= j < |refs| ==> AliasOf(aliases, refs[j]).None?
    ensures Collect(aliases, refs) == keys
  {
    if refs != [] {
      var n := |refs| - 1;
      assert refs == refs[..n] + [refs[n]];
      CollectSnoc(aliases, refs[..n], refs[n]);
      if n >= |keys| {
        CollectUndoes(aliases, keys, refs[..n]);
      } else {
        assert keys == keys[..n] + [keys[n]];
        CollectUndoes(aliases, keys[..n], refs[..n]);
        AliasOfKnown(aliases, keys[n]);
      }
    }
  }

  lemma EventOfIsEvent(s: Snapshot, src: Sources, ids: seq<string>, source: Source)
    requires AllEvents(s, src.events) && EventOf(src.events, ids, source)
    ensures EventSource(s, source)
  {
  }

  lemma DecompileClaimUndoes(s: Snapshot, src: Sources, claim: ModelClaim)
    requires WellBuilt(s, src) && ExpandClaim(src, claim).Some?
    ensures var c := ExpandClaim(src, claim).value;
            && c.fields == claim.fields && Reversible(src, c) && Collect(src.aliases, c.refs) == claim.aliases
            && |c.refs| <= |claim.aliases| + |EventIds(claim.fields)|
  {
    var c, ids := ExpandClaim(src, claim).value, EventIds(claim.fields);
    KnownInjective(s, src.aliases);
    OwnSources(src.aliases, claim.aliases);
    EventSources(AppendAll([], src.aliases, claim.aliases).value, src.events, ids);
    SplitUndoes(s, src, claim.aliases, ids, c.refs);
  }

  lemma SplitRecoverable(src: Sources, keys: seq<string>, ids: seq<string>, refs: seq<Source>)
    requires Injective(src.aliases) && Locates(src.aliases, keys, refs)
    requires forall j :: |keys| <= j < |refs| ==> EventOf(src.events, ids, refs[j])
    ensures forall j :: 0 <= j < |refs| ==> Recoverable(src, ids, refs[j])
  {
    forall j | 0 <= j < |keys| ensures AliasOf(src.aliases, refs[j]).Some? {
      AliasOfKnown(src.aliases, keys[j]);
    }
  }

  lemma EventsUnaliased(s: Snapshot, src: Sources, ids: seq<string>, refs: seq<Source>, from: nat)
    requires WellBuilt(s, src) && from <= |refs| && forall j :: from <= j < |refs| ==> EventOf(src.events, ids, refs[j])
    ensures forall j :: from <= j < |refs| ==> AliasOf(src.aliases, refs[j]).None?
  {
    forall j | from <= j < |refs| ensures AliasOf(src.aliases, refs[j]).None? {
      EventOfIsEvent(s, src, ids, refs[j]);
      EventHasNoAlias(s, src.aliases, refs[j]);
    }
  }

  lemma SplitUndoes(s: Snapshot, src: Sources, keys: seq<string>, ids: seq<string>, refs: seq<Source>)
    requires WellBuilt(s, src) && Locates(src.aliases, keys, refs)
    requires forall j :: |keys| <= j < |refs| ==> EventOf(src.events, ids, refs[j])
    ensures Collect(src.aliases, refs) == keys
    ensures forall j :: 0 <= j < |refs| ==> Recoverable(src, ids, refs[j])
  {
    KnownInjective(s, src.aliases);
    EventsUnaliased(s, src, ids, refs, |keys|);
    CollectUndoes(src.aliases, keys, refs);
    SplitRecoverable(src, keys, ids, refs);
  }

  lemma DecompiledSnoc(src: Sources, claims: seq<Claim>, last: Claim)
    ensures Decompiled(src, claims + [last]) == Decompiled(src, claims) + [ModelClaim(last.fields, Collect(src.aliases, last.refs))]
  {
    assert (claims + [last])[..|claims|] == claims;
  }

  lemma ExpandedSnoc(src: Sources, claims: seq<ModelClaim>)
    requires claims != [] && ExpandClaims(src, claims).Some?
    ensures ExpandClaims(src, claims[..|claims| - 1]).Some? && ExpandClaim(src, claims[|claims| - 1]).Some?
    ensures ExpandClaims(src, claims).value
            == ExpandClaims(src, claims[..|claims| - 1]).value + [ExpandClaim(src, claims[|claims| - 1]).value]
  {
  }

  lemma {:induction false} DecompileClaimsUndoes(s: Snapshot, src: Sources, claims: seq<ModelClaim>)
    requires WellBuilt(s, src) && ExpandClaims(src, claims).Some?
    ensures var out := ExpandClaims(src, claims).value;
            && |out| == |claims| && Decompiled(src, out) == claims && forall i :: 0 <= i < |out| ==> Reversible(src, out[i])
  {
    if claims != [] {
      var n := |claims| - 1;
      ExpandedSnoc(src, claims);
      DecompileClaimsUndoes(s, src, claims[..n]);
      DecompileClaimUndoes(s, src, claims[n]);
      DecompiledSnoc(src, ExpandClaims(src, claims[..n]).value, ExpandClaim(src, claims[n]).value);
      assert claims == claims[..n] + [claims[n]];
    }
  }

  /** Reversing a compiled proposal recovers exactly what the model said. */
  lemma DecompileUndoesCompile(s: Snapshot, prior: seq<StepRecord>, model: Model, repeatedSearch: bool, fits: Proposal -> bool)
    requires Compile(s, prior, model, repeatedSearch, fits).Success?
    ensures var p := Compile(s, prior, model, repeatedSearch, fits).value;
            p.Support? && Model(p.verdict, Decompiled(SourcesAfter(s, prior, repeatedSearch).value, p.claims)) == model
  {
    SourcesWellBuilt(s, prior, repeatedSearch);
    DecompileClaimsUndoes(s, SourcesAfter(s, prior, repeatedSearch).value, model.claims);
  }

  /** Whatever the compiler produces, the validator accepts on the same history. */
  lemma CompiledIsAccepted(s: Snapshot, prior: seq<StepRecord>, model: Model, repeatedSearch: bool, fits: Proposal -> bool)
    requires Compile(s, prior, model, repeatedSearch, fits).Success?
    ensures Accepted(s, prior, Some(Compile(s, prior, model, repeatedSearch, fits).value), repeatedSearch, fits)
  {
    SourcesWellBuilt(s, prior, repeatedSearch);
    DecompileClaimsUndoes(s, SourcesAfter(s, prior, repeatedSearch).value, model.claims);
  }

  /** A proposal is accepted exactly when it is the compilation of some model output; that output is unique. */
  lemma AcceptedExactlyCompiled(s: Snapshot, prior: seq<StepRecord>, p: Proposal, repeatedSearch: bool, fits: Proposal -> bool)
    ensures Accepted(s, prior, Some(p), repeatedSearch, fits)
            <==> exists model :: Compile(s, prior, model, repeatedSearch, fits) == Success(p)
    ensures forall m, m' :: Compile(s, prior, m, repeatedSearch, fits) == Success(p) == Compile(s, prior, m', repeatedSearch, fits) ==> m == m'
  {
    forall m | Compile(s, prior, m, repeatedSearch, fits) == Success(p)
      ensures Accepted(s, prior, Some(p), repeatedSearch, fits)
      ensures p.Support? && m == Model(p.verdict, Decompiled(SourcesAfter(s, prior, repeatedSearch).value, p.claims))
    {
      CompiledIsAccepted(s, prior, m, repeatedSearch, fits);
      DecompileUndoesCompile(s, prior, m, repeatedSearch, fits);
    }
  }

  // ---------- some answer compiles ----------

  lemma OneSource(table: map<string, Source>, key: string)
    requires key in table
    ensures AppendAll([], table, [key]) == Some([table[key]])
  {
    var keys := [key];
    assert keys[..|keys| - 1] == [] && AppendAll([], table, keys[..|keys| - 1]) == Some([]);
    assert [] + [table[key]] == [table[key]];
  }

  lemma CitationExpands(src: Sources, claim: ModelClaim, chunk: string, source: Source)
    requires claim == ModelClaim(Missing("ticket.order_id"), [chunk]) && chunk != "" && chunk in src.aliases && src.aliases[chunk] == source
    requires IsPolicy(source)
    ensures ExpandClaims(src, [claim]) == Some([Claim(claim.fields, [source])])
  {
    OneSource(src.aliases, chunk);
    assert source in [source];
    var claims := [claim];
    assert claims[..|claims| - 1] == [] && ExpandClaims(src, claims[..|claims| - 1]) == Some([]);
    assert [] + [Claim(claim.fields, [source])] == [Claim(claim.fields, [source])];
  }

  lemma OneReference(claim: Claim, source: Source)
    requires claim.refs == [source]
    ensures EvidenceOf([claim]) == [source.ref]
  {
    var claims := [claim];
    assert claims[..|claims| - 1] == [] && EvidenceOf(claims[..|claims| - 1]) == [];
    assert claim.refs[..|claim.refs| - 1] == [] && AppendRefs([], claim.refs[..|claim.refs| - 1]) == [];
  }

  /** The shortest answer: nothing can be done without an order, says one policy paragraph. */
  function ShortAnswer(s: Snapshot, chunk: string): Model {
    Model(Verdict("no_action", "", "insufficient", [], s.ticket.status), [ModelClaim(Missing("ticket.order_id"), [chunk])])
  }

  function ShortProposal(s: Snapshot, chunk: string): Proposal {
    Compiled(ShortAnswer(s, chunk).verdict, [Claim(Missing("ticket.order_id"), [Source(PolicyRef(s, chunk), "/text")])])
  }

  lemma PolicyAliasSource(s: Snapshot, chunk: string, source: Source)
    requires KnownAlias(s, chunk, source) && PolicyAlias(chunk)
    ensures source == Source(PolicyRef(s, chunk), "/text")
  {
    forall o ensures !PointerAlias(s, chunk, source, o) {
      assert forall p :: p in o.Pointers() ==> |p| >= 7;
    }
  }

  lemma ShortAnswerIs(s: Snapshot, chunk: string)
    requires s.ticket.status in {"open", "awaiting_information", "escalated", "informational_only"}
    ensures var model := ShortAnswer(s, chunk);
            && ValidVerdict(model.verdict) && TargetMatches(model.verdict, s.ticket.status)
            && model.claims == [ModelClaim(Missing("ticket.order_id"), [chunk])]
  {
  }

  lemma ExpandedCompiles(s: Snapshot, prior: seq<StepRecord>, model: Model, repeatedSearch: bool, fits: Proposal -> bool, src: Sources,
      claims: seq<Claim>)
    requires SourcesAfter(s, prior, repeatedSearch) == Success(src) && ExpandClaims(src, model.claims) == Some(claims)
    requires ValidVerdict(model.verdict) && 1 <= |model.claims| <= 4 && TargetMatches(model.verdict, s.ticket.status)
    requires |EvidenceOf(claims)| <= 32 && fits(Compiled(model.verdict, claims))
    ensures Compile(s, prior, model, repeatedSearch, fits) == Success(Compiled(model.verdict, claims))
  {
  }

  lemma CitedSource(s: Snapshot, prior: seq<StepRecord>, chunk: string, repeatedSearch: bool, src: Sources)
    requires SourcesAfter(s, prior, repeatedSearch) == Success(src) && PolicyAlias(chunk) && chunk in src.aliases
    ensures src.aliases[chunk] == Source(PolicyRef(s, chunk), "/text")
  {
    SourcesWellBuilt(s, prior, repeatedSearch);
    PolicyAliasSource(s, chunk, src.aliases[chunk]);
  }

  lemma CitationCompiles(s: Snapshot, src: Sources, chunk: string)
    requires PolicyAlias(chunk) && chunk in src.aliases && src.aliases[chunk] == Source(PolicyRef(s, chunk), "/text")
    ensures var claim := Claim(Missing("ticket.order_id"), [Source(PolicyRef(s, chunk), "/text")]);
            ExpandClaims(src, [ModelClaim(Missing("ticket.order_id"), [chunk])]) == Some([claim]) && |EvidenceOf([claim])| == 1
  {
    var source := Source(PolicyRef(s, chunk), "/text");
    CitationExpands(src, ModelClaim(Missing("ticket.order_id"), [chunk]), chunk, source);
    OneReference(Claim(Missing("ticket.order_id"), [source]), source);
  }

  /** On every history whose sources hold a policy paragraph the shortest answer that cites it compiles. */
  lemma SomethingCompiles(s: Snapshot, prior: seq<StepRecord>, chunk: string, repeatedSearch: bool, fits: Proposal -> bool)
    requires s.ticket.status in {"open", "awaiting_information", "escalated", "informational_only"} && fits(ShortProposal(s, chunk))
    requires PolicyAlias(chunk)
    requires var built := SourcesAfter(s, prior, repeatedSearch);
             built.Success? && chunk in built.value.aliases
    ensures Compile(s, prior, ShortAnswer(s, chunk), repeatedSearch, fits) == Success(ShortProposal(s, chunk))
  {
    var src, claim := SourcesAfter(s, prior, repeatedSearch).value, Claim(Missing("ticket.order_id"), [Source(PolicyRef(s, chunk), "/text")]);
    CitedSource(s, prior, chunk, repeatedSearch, src);
    CitationCompiles(s, src, chunk);
    ShortAnswerIs(s, chunk);
    ExpandedCompiles(s, prior, ShortAnswer(s, chunk), repeatedSearch, fits, src, [claim]);
  }

  // ---------- what a compiled proposal looks like ----------

  ghost predicate DistinctSeq<T(!new)>(list: seq<T>) {
    forall i, j :: 0 <= i < j < |list| ==> list[i] != list[j]
  }

  /** The registered shape of a persisted support proposal. */
  ghost predicate ValidShape(p: Proposal) {
    && p.Support? && ValidVerdict(p.verdict) && 1 <= |p.claims| <= 4
    && (forall i :: 0 <= i < |p.claims| ==>
          ValidClaim(p.claims[i].fields) && 1 <= |p.claims[i].refs| <= 10 && DistinctSeq(p.claims[i].refs))
    && (forall i, j :: 0 <= i < j < |p.claims| ==> ClaimIdentity(p.claims[i]) != ClaimIdentity(p.claims[j]))
  }

  lemma {:induction false} AppendAllDistinct(start: seq<Source>, table: map<string, Source>, keys: seq<string>)
    requires DistinctSeq(start) && AppendAll(start, table, keys).Some?
    ensures DistinctSeq(AppendAll(start, table, keys).value)
  {
    if keys != [] {
      AppendAllDistinct(start, table, keys[..|keys| - 1]);
    }
  }

  lemma ExpandedShape(s: Snapshot, src: Sources, claim: ModelClaim)
    requires WellBuilt(s, src) && ExpandClaim(src, claim).Some?
    ensures var c := ExpandClaim(src, claim).value;
            && ValidClaim(c.fields) && 1 <= |c.refs| <= 10 && DistinctSeq(c.refs)
            && exists r :: r in c.refs && IsPolicy(r)
  {
    DecompileClaimUndoes(s, src, claim);
    var own := AppendAll([], src.aliases, claim.aliases).value;
    AppendAllDistinct([], src.aliases, claim.aliases);
    AppendAllDistinct(own, src.events, EventIds(claim.fields));
    EventSources(own, src.events, EventIds(claim.fields));
    var r :| r in own && IsPolicy(r);
    assert r in ExpandClaim(src, claim).value.refs;
  }

  lemma {:induction false} ExpandedShapes(s: Snapshot, src: Sources, claims: seq<ModelClaim>)
    requires WellBuilt(s, src) && ExpandClaims(src, claims).Some?
    ensures var out := ExpandClaims(src, claims).value;
            && |out| == |claims|
            && (forall i :: 0 <= i < |out| ==>
                  && ValidClaim(out[i].fields) && 1 <= |out[i].refs| <= 10 && DistinctSeq(out[i].refs)
                  && exists r :: r in out[i].refs && IsPolicy(r))
            && (forall i, j :: 0 <= i < j < |out| ==> ClaimIdentity(out[i]) != ClaimIdentity(out[j]))
  {
    if claims != [] {
      ExpandedShapes(s, src, claims[..|claims| - 1]);
      ExpandedShape(s, src, claims[|claims| - 1]);
    }
  }

  /** A compiled proposal has the registered shape, and each of its claims cites a policy. */
  lemma CompiledShape(s: Snapshot, prior: seq<StepRecord>, model: Model, repeatedSearch: bool, fits: Proposal -> bool)
    requires Compile(s, prior, model, repeatedSearch, fits).Success?
    ensures var p := Compile(s, prior, model, repeatedSearch, fits).value;
            ValidShape(p) && forall i :: 0 <= i < |p.claims| ==> exists r :: r in p.claims[i].refs && IsPolicy(r)
  {
    SourcesWellBuilt(s, prior, repeatedSearch);
    ExpandedShapes(s, SourcesAfter(s, prior, repeatedSearch).value, model.claims);
  }

  // ---------- provenance ----------

  ghost predicate FromSources(src: Sources, source: Source) {
    (exists a :: a in src.aliases && src.aliases[a] == source) || (exists e :: e in src.events && src.events[e] == source)
  }

  lemma ReversibleFromSources(src: Sources, claim: Claim)
    requires Reversible(src, claim)
    ensures forall r :: r in claim.refs ==> FromSources(src, r)
  {
    forall r | r in claim.refs ensures FromSources(src, r) {
      var j :| 0 <= j < |claim.refs| && claim.refs[j] == r;
      assert Recoverable(src, EventIds(claim.fields), r);
    }
  }

  predicate Names(sources: seq<Source>, ref: string) {
    exists j :: 0 <= j < |sources| && sources[j].ref == ref
  }

  lemma {:induction false} AppendedRefs(list: seq<string>, sources: seq<Source>)
    requires DistinctSeq(list)
    ensures var out := AppendRefs(list, sources);
            && DistinctSeq(out) && list <= out && (sources != [] ==> out != [])
            && (forall ref :: ref in out <==> ref in list || Names(sources, ref))
  {
    if sources != [] {
      var n := |sources| - 1;
      AppendedRefs(list, sources[..n]);
      var before, out := AppendRefs(list, sources[..n]), AppendRefs(list, sources);
      forall ref ensures Names(sources, ref) <==> Names(sources[..n], ref) || ref == sources[n].ref {
        if j :| 0 <= j < n && sources[..n][j].ref == ref {
          assert sources[j].ref == ref;
        }
      }
    }
  }

  /** The proposal's evidence is exactly the references its claims cite, each once. */
  lemma {:induction false} EvidenceExact(claims: seq<Claim>)
    ensures var out := EvidenceOf(claims);
            && DistinctSeq(out)
            && (forall ref :: ref in out <==> exists c, r :: c in claims && r in c.refs && r.ref == ref)
  {
    if claims != [] {
      var n := |claims| - 1;
      var rest, last, out := claims[..n], claims[n], EvidenceOf(claims);
      EvidenceExact(rest);
      AppendedRefs(EvidenceOf(rest), last.refs);
      assert claims == rest + [last];
      forall ref | ref in out ensures exists c, r :: c in claims && r in c.refs && r.ref == ref {
        if Names(last.refs, ref) {
          var j :| 0 <= j < |last.refs| && last.refs[j].ref == ref;
          assert last in claims && last.refs[j] in last.refs;
        } else {
          assert ref in EvidenceOf(rest);
          var c, r :| c in rest && r in c.refs && r.ref == ref;
          assert c in claims;
        }
      }
      forall c, r | c in claims && r in c.refs ensures r.ref in out {
        if c in rest {
          assert r.ref in EvidenceOf(rest);
        } else {
          var j :| 0 <= j < |last.refs| && last.refs[j] == r;
          assert Names(last.refs, r.ref);
        }
      }
    }
  }

  lemma ClaimsReturned(s: Snapshot, prior: seq<StepRecord>, src: Sources, claims: seq<Claim>)
    requires AllReturned(s, prior, src) && forall i :: 0 <= i < |claims| ==> Reversible(src, claims[i])
    ensures forall c, r :: c in claims && r in c.refs ==> Returned(s, prior, r.ref)
  {
    forall c, r | c in claims && r in c.refs ensures Returned(s, prior, r.ref) {
      ReversibleFromSources(src, c);
    }
  }

  lemma EvidenceHasFirst(claims: seq<Claim>)
    requires claims != [] && claims[0].refs != []
    ensures claims[0].refs[0].ref in EvidenceOf(claims)
  {
    EvidenceExact(claims);
    assert claims[0] in claims && claims[0].refs[0] in claims[0].refs;
  }

  /** Every reference an accepted proposal persists, in its claims or its evidence list, was returned in this history. */
  lemma AcceptedReferencesReturned(s: Snapshot, prior: seq<StepRecord>, p: Proposal, repeatedSearch: bool, fits: Proposal -> bool)
    requires Accepted(s, prior, Some(p), repeatedSearch, fits)
    ensures forall c, r :: c in p.claims && r in c.refs ==> Returned(s, prior, r.ref)
    ensures forall ref :: ref in p.evidenceRefs ==> Returned(s, prior, ref)
    ensures DistinctSeq(p.evidenceRefs) && 1 <= |p.evidenceRefs| <= 32
  {
    var src := SourcesAfter(s, prior, repeatedSearch).value;
    SourcesReturned(s, prior, repeatedSearch);
    ClaimsReturned(s, prior, src, p.claims);
    CompiledShape(s, prior, Model(p.verdict, Decompiled(src, p.claims)), repeatedSearch, fits);
    assert p.evidenceRefs == EvidenceOf(p.claims);
    EvidenceExact(p.claims);
    EvidenceHasFirst(p.claims);
  }

  // ---------- the summary fits ----------

  function Total(parts: seq<string>): nat {
    if parts == [] then 0 else Total(parts[..|parts| - 1]) + |parts[|parts| - 1]|
  }

  lemma {:induction false} JoinLength(parts: seq<string>, separator: string)
    requires |separator| <= 2
    ensures Total(parts) <= |Join(parts, separator)| <= Total(parts) + 2 * |parts|
  {
    if |parts| > 1 {
      JoinLength(parts[..|parts| - 1], separator);
    } else if |parts| == 1 {
      assert parts[..0] == [] && Total(parts[..0]) == 0;
    }
  }

  lemma {:induction false} TotalBound(parts: seq<string>, bound: nat)
    requires forall p :: p in parts ==> |p| <= bound
    ensures Total(parts) <= |parts| * bound
  {
    if parts != [] {
      var n := |parts| - 1;
      TotalBound(parts[..n], bound);
      assert parts[n] in parts && (n + 1) * bound == n * bound + bound;
    }
  }

  lemma DescribeLength(c: ClaimFields)
    requires ValidClaim(c)
    ensures |Describe(c)| <= 320
  {
    if c.Conflict? {
      assert forall id :: id in c.eventIds ==> |id| <= 128;
      JoinLength(c.eventIds, ", ");
      TotalBound(c.eventIds, 128);
    }
  }

  lemma RequestableLength(f: string)
    requires f in REQUESTABLE
    ensures |f| <= 31
  {
  }

  lemma WordLengths(v: Verdict)
    requires ValidVerdict(v)
    ensures |v.action| <= 20 && |v.conclusion| <= 20 && |v.target| <= 20
  {
  }

  lemma FieldsLength(fields: seq<string>)
    requires |fields| <= 5 && forall i :: 0 <= i < |fields| ==> fields[i] in REQUESTABLE
    ensures |Join(fields, ", ")| <= 165
  {
    forall f | f in fields ensures |f| <= 31 {
      RequestableLength(f);
    }
    JoinLength(fields, ", ");
    TotalBound(fields, 31);
  }

  lemma HeadlineLength(v: Verdict)
    requires ValidVerdict(v)
    ensures 1 <= |Headline(v)| <= 500
  {
    WordLengths(v);
    FieldsLength(v.requestedFields);
  }

  lemma {:induction false} LinesLength(v: Verdict, claims: seq<Claim>)
    requires ValidVerdict(v) && forall i :: 0 <= i < |claims| ==> ValidClaim(claims[i].fields)
    ensures 1 <= Total(Lines(v, claims)) <= 500 + |claims| * 340
  {
    HeadlineLength(v);
    if claims == [] {
      assert Lines(v, claims)[..0] == [] && Total(Lines(v, claims)[..0]) == 0;
    } else {
      var n := |claims| - 1;
      LinesLength(v, claims[..n]);
      DescribeLength(claims[n].fields);
      assert Lines(v, claims)[..|Lines(v, claims)| - 1] == Lines(v, claims[..n]);
      assert (n + 1) * 340 == n * 340 + 340;
    }
  }

  /** A rendered summary is never empty and never reaches the bound a commit puts on it. */
  lemma SummaryLength(v: Verdict, claims: seq<Claim>)
    requires ValidVerdict(v) && |claims| <= 4 && forall i :: 0 <= i < |claims| ==> ValidClaim(claims[i].fields)
    ensures 1 <= |Summary(v, claims)| <= 8192
  {
    LinesLength(v, claims);
    JoinLength(Lines(v, claims), "\n");
  }

  // ---------- the loops ----------

  method UniqueStrings(values: seq<string>, minimum: nat, maximum: nat) returns (ok: bool)
    ensures ok == Unique(values, minimum, maximum)
  {
    if |values| < minimum || |values| > maximum {
      return false;
    }
    var seen := {};
    for i := 0 to |values|
      invariant seen == set j | 0 <= j < i :: values[j]
      invariant forall j :: 0 <= j < i ==> values[j] != ""
      invariant forall j, k :: 0 <= j < k < i ==> values[j] != values[k]
    {
      if values[i] == "" || values[i] in seen {
        return false;
      }
      seen := seen + {values[i]};
    }
    return true;
  }

  lemma {:induction false} UnknownKeyFails(start: seq<Source>, table: map<string, Source>, keys: seq<string>, i: nat)
    requires i < |keys| && keys[i] !in table
    ensures AppendAll(start, table, keys).None?
  {
    if i < |keys| - 1 {
      UnknownKeyFails(start, table, keys[..|keys| - 1], i);
    }
  }

  method AppendSources(start: seq<Source>, table: map<string, Source>, keys: seq<string>) returns (out: Option<seq<Source>>)
    ensures out == AppendAll(start, table, keys)
  {
    var list := start;
    for i := 0 to |keys|
      invariant AppendAll(start, table, keys[..i]) == Some(list)
    {
      if keys[i] !in table {
        UnknownKeyFails(start, table, keys, i);
        return None;
      }
      assert keys[..i + 1][..i] == keys[..i];
      list := AppendUnique(list, table[keys[i]]);
    }
    assert keys[..|keys|] == keys;
    return Some(list);
  }

  method ExpandOne(src: Sources, claim: ModelClaim) returns (out: Option<Claim>)
    ensures out == ExpandClaim(src, claim)
  {
    var unique := UniqueStrings(claim.aliases, 1, 8);
    if !ValidClaim(claim.fields) || !unique {
      return None;
    }
    var own := AppendSources([], src.aliases, claim.aliases);
    if own.None? {
      return None;
    }
    var hasPolicy := false;
    for i := 0 to |own.value|
      invariant hasPolicy <==> exists j :: 0 <= j < i && IsPolicy(own.value[j])
    {
      hasPolicy := hasPolicy || IsPolicy(own.value[i]);
    }
    if !hasPolicy {
      assert forall r :: r in own.value ==> !IsPolicy(r);
      return None;
    }
    var all := AppendSources(own.value, src.events, EventIds(claim.fields));
    if all.None? {
      return None;
    }
    return Some(Claim(claim.fields, all.value));
  }

  lemma {:induction false} BadClaimFails(src: Sources, claims: seq<ModelClaim>, i: nat)
    requires i <= |claims| && ExpandClaims(src, claims[..i]).None?
    ensures ExpandClaims(src, claims).None?
  {
    if i < |claims| {
      assert claims[..|claims| - 1][..i] == claims[..i];
      BadClaimFails(src, claims[..|claims| - 1], i);
    } else {
      assert claims[..i] == claims;
    }
  }

  method ExpandAll(src: Sources, claims: seq<ModelClaim>) returns (out: Option<seq<Claim>>)
    ensures out == ExpandClaims(src, claims)
  {
    var list, seen := [], {};
    for i := 0 to |claims|
      invariant ExpandClaims(src, claims[..i]) == Some(list)
      invariant forall id :: id in seen <==> exists c :: c in list && ClaimIdentity(c) == id
    {
      assert claims[..i + 1][..i] == claims[..i];
      var expanded := ExpandOne(src, claims[i]);
      if expanded.None? || ClaimIdentity(expanded.value) in seen {
        BadClaimFails(src, claims, i + 1);
        return None;
      }
      seen, list := seen + {ClaimIdentity(expanded.value)}, list + [expanded.value];
    }
    assert claims[..|claims|] == claims;
    return Some(list);
  }

  method CollectEvidence(claims: seq<Claim>) returns (refs: seq<string>)
    ensures refs == EvidenceOf(claims)
  {
    refs := [];
    for i := 0 to |claims|
      invariant refs == EvidenceOf(claims[..i])
    {
      assert claims[..i + 1][..i] == claims[..i];
      var sources := claims[i].refs;
      ghost var before := refs;
      for j := 0 to |sources|
        invariant refs == AppendRefs(before, sources[..j])
      {
        assert sources[..j + 1][..j] == sources[..j];
        refs := AppendUnique(refs, sources[j].ref);
      }
      assert sources[..|sources|] == sources;
    }
    assert claims[..|claims|] == claims;
  }

  method RenderSummary(v: Verdict, claims: seq<Claim>) returns (text: string)
    ensures text == Summary(v, claims)
  {
    var lines := [Headline(v)];
    for i := 0 to |claims|
      invariant lines == Lines(v, claims[..i])
    {
      assert claims[..i + 1][..i] == claims[..i];
      lines := lines + ["Claim asserted: " + Describe(claims[i].fields) + "."];
    }
    assert claims[..|claims|] == claims;
    text := Join(lines, "\n");
  }

  method SupportProposalFromModel(s: Snapshot, prior: seq<StepRecord>, model: Model, repeatedSearch: bool, fits: Proposal -> bool)
    returns (result: Result<Proposal, GraphError>)
    ensures result == Compile(s, prior, model, repeatedSearch, fits)
  {
    if !ValidVerdict(model.verdict) || |model.claims| < 1 || |model.claims| > 4 {
      return Failure(ModelProtocol);
    }
    var src := BuildSupportSources(s, prior, repeatedSearch);
    if src.Failure? {
      return Failure(src.error);
    }
    var claims := ExpandAll(src.value, model.claims);
    if claims.None? {
      return Failure(ModelProtocol);
    }
    var refs := CollectEvidence(claims.value);
    var summary := RenderSummary(model.verdict, claims.value);
    var proposal := Support(model.verdict, summary, refs, claims.value);
    if !TargetMatches(model.verdict, s.ticket.status) || |refs| > 32 {
      return Failure(ModelProtocol);
    }
    if !fits(proposal) {
      return Failure(TooLarge);
    }
    return Success(proposal);
  }

  /** The reversed alias table; iteration order does not matter because no source has two aliases. */
  method ReverseAliases(aliases: map<string, Source>) returns (reverse: map<Source, string>)
    requires Injective(aliases)
    ensures Reverses(aliases, reverse)
  {
    reverse := map[];
    var keys := aliases.Keys;
    while keys != {}
      invariant keys <= aliases.Keys
      invariant forall a :: a in aliases.Keys - keys ==> aliases[a] in reverse && reverse[aliases[a]] == a
      invariant forall source :: source in reverse ==> reverse[source] in aliases && aliases[reverse[source]] == source
      decreases keys
    {
      var a :| a in keys;
      keys := keys - {a};
      reverse := reverse[aliases[a] := a];
    }
    forall source | source in reverse ensures AliasOf(aliases, source) == Some(reverse[source]) {
      AliasOfKnown(aliases, reverse[source]);
    }
  }

  ghost predicate Reverses(aliases: map<string, Source>, reverse: map<Source, string>) {
    && (forall source :: source in reverse <==> AliasOf(aliases, source).Some?)
    && (forall source :: source in reverse ==> AliasOf(aliases, source) == Some(reverse[source]))
  }

  lemma EventList(events: map<string, Source>, ids: seq<string>, sources: seq<Source>)
    requires |sources| == |ids| && forall k :: 0 <= k < |ids| ==> ids[k] in events && events[ids[k]] == sources[k]
    ensures forall source :: source in sources <==> EventOf(events, ids, source)
  {
    forall source ensures source in sources <==> EventOf(events, ids, source) {
      if source in sources {
        var k :| 0 <= k < |sources| && sources[k] == source;
        assert events[ids[k]] == source;
      }
    }
  }

  method CollectAliases(src: Sources, ids: seq<string>, reverse: map<Source, string>, sources: seq<Source>, refs: seq<Source>)
    returns (out: Option<seq<string>>)
    requires Reverses(src.aliases, reverse) && forall source :: source in sources <==> EventOf(src.events, ids, source)
    ensures out == if (forall j :: 0 <= j < |refs| ==> Recoverable(src, ids, refs[j])) then Some(Collect(src.aliases, refs)) else None
  {
    var aliases := [];
    for j := 0 to |refs|
      invariant aliases == Collect(src.aliases, refs[..j])
      invariant forall k :: 0 <= k < j ==> Recoverable(src, ids, refs[k])
    {
      assert refs[..j + 1][..j] == refs[..j];
      if refs[j] in reverse {
        aliases := aliases + [reverse[refs[j]]];
      } else if refs[j] !in sources {
        assert !Recoverable(src, ids, refs[j]);
        return None;
      }
    }
    assert refs[..|refs|] == refs;
    return Some(aliases);
  }

  method DecompileClaim(src: Sources, reverse: map<Source, string>, claim: Claim) returns (out: Option<ModelClaim>)
    requires Reverses(src.aliases, reverse)
    ensures out == if Reversible(src, claim) then Some(ModelClaim(claim.fields, Collect(src.aliases, claim.refs))) else None
  {
    var ids, sources := EventIds(claim.fields), [];
    for i := 0 to |ids|
      invariant |sources| == i && forall k :: 0 <= k < i ==> ids[k] in src.events && src.events[ids[k]] == sources[k]
    {
      if ids[i] !in src.events {
        return None;
      }
      sources := sources + [src.events[ids[i]]];
    }
    EventList(src.events, ids, sources);
    var aliases := CollectAliases(src, ids, reverse, sources, claim.refs);
    if aliases.None? {
      return None;
    }
    return Some(ModelClaim(claim.fields, aliases.value));
  }

  method ValidateSupportProposal(s: Snapshot, prior: seq<StepRecord>, proposal: Option<Proposal>, repeatedSearch: bool,
                                 fits: Proposal -> bool)
    returns (ok: bool)
    ensures ok == Accepted(s, prior, proposal, repeatedSearch, fits)
  {
    var src := BuildSupportSources(s, prior, repeatedSearch);
    if src.Failure? || proposal.None? || !proposal.value.Support? {
      return false;
    }
    SourcesWellBuilt(s, prior, repeatedSearch);
    KnownInjective(s, src.value.aliases);
    var reverse := ReverseAliases(src.value.aliases);
    var p, claims := proposal.value, [];
    for i := 0 to |p.claims|
      invariant claims == Decompiled(src.value, p.claims[..i])
      invariant forall k :: 0 <= k < i ==> Reversible(src.value, p.claims[k])
    {
      assert p.claims[..i + 1][..i] == p.claims[..i];
      var claim := DecompileClaim(src.value, reverse, p.claims[i]);
      if claim.None? {
        return false;
      }
      claims := claims + [claim.value];
    }
    assert p.claims[..|p.claims|] == p.claims;
    var expected := SupportProposalFromModel(s, prior, Model(p.verdict, claims), repeatedSearch, fits);
    return expected == Success(p);
  }
}
