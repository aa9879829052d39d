/**
  What a compiled proposal cites, said without the compiler: which aliases and events a history offers and
  where each of them points (internal/run/support_sources.go), and when an answer compiles and into which
  references (internal/run/support.go).
*/
module SupportCitations {
  import opened Wrappers
  import opened Identity
  import opened BusinessModel
  import opened SupportSources
  import opened SupportProposal

  // ---------- what a history offers ----------

  ghost predicate LocatedPointer(pointers: seq<string>, located: set<string>, prefix: string, alias: string) {
    exists i :: 0 <= i < |pointers| && pointers[i] in located && alias == prefix + "#" + pointers[i]
  }

  /** The step returned something under this alias. */
  ghost predicate StepOffers(step: StepRecord, alias: string) {
    match step.kind
    case GetOrder => LocatedPointer(ORDER_POINTERS, LocatedIn(step), "E1", alias)
    case GetDelivery => LocatedPointer(DELIVERY_POINTERS, LocatedIn(step), "E2", alias)
    case SearchPolicy => exists i :: 0 <= i < |MatchesOf(step.result.content)| && MatchesOf(step.result.content)[i].chunkId == alias
    case ReadPolicyBundle => exists i :: 0 <= i < |MatchesOf(step.result.content)| && MatchesOf(step.result.content)[i].chunkId == alias
    case _ => false
  }

  function LocatedIn(step: StepRecord): set<string> {
    if step.result.content.Evidence? then step.result.content.located else {}
  }

  function EventsIn(step: StepRecord): seq<Event> {
    var content := step.result.content;
    if content.Evidence? && content.delivery.Some? && content.delivery.value.events.Some? then content.delivery.value.events.value else []
  }

  /** The ticket itself or one of the history's tool steps offers the alias. */
  ghost predicate Offered(s: Snapshot, prior: seq<StepRecord>, alias: string) {
    || LocatedPointer(TICKET_POINTERS, s.located, "T", alias)
    || exists i :: 0 <= i < |prior| && StepOffers(prior[i], alias)
  }

  /** The history's delivery read returned this event in this place. */
  ghost predicate OffersEvent(s: Snapshot, prior: seq<StepRecord>, id: string, source: Source) {
    exists i, j: nat :: 0 <= i < |prior| && ReturnsEvent(s, prior[i], j, id, source)
  }

  ghost predicate ReturnsEvent(s: Snapshot, step: StepRecord, j: nat, id: string, source: Source) {
    && step.kind.GetDelivery? && j < |EventsIn(step)| && EventsIn(step)[j].eventId == id
    && source == Source(EvidenceRef(s, "delivery"), "/delivery/events/" + Decimal(j))
  }

  lemma {:induction false} PointerKeys(aliases: map<string, Source>, prefix: string, ref: string, pointers: seq<string>, located: set<string>,
                                       alias: string)
    ensures alias in AddPointers(aliases, prefix, ref, pointers, located)
            <==> alias in aliases || LocatedPointer(pointers, located, prefix, alias)
  {
    if pointers != [] {
      var n := |pointers| - 1;
      PointerKeys(aliases, prefix, ref, pointers[..n], located, alias);
      assert LocatedPointer(pointers, located, prefix, alias)
             <==> LocatedPointer(pointers[..n], located, prefix, alias) || (pointers[n] in located && alias == prefix + "#" + pointers[n]) by {
        if LocatedPointer(pointers[..n], located, prefix, alias) {
          var i :| 0 <= i < n && pointers[..n][i] in located && alias == prefix + "#" + pointers[..n][i];
          assert pointers[i] == pointers[..n][i];
        }
        if LocatedPointer(pointers, located, prefix, alias) {
          var i :| 0 <= i < |pointers| && pointers[i] in located && alias == prefix + "#" + pointers[i];
          assert i < n ==> pointers[..n][i] == pointers[i];
        }
      }
    }
  }

  lemma {:induction false} HitKeys(src: Sources, hits: seq<Hit>, alias: string)
    requires AddHits(src, hits).Success?
    ensures alias in AddHits(src, hits).value.aliases
            <==> alias in src.aliases || exists i :: 0 <= i < |hits| && hits[i].chunkId == alias
    ensures AddHits(src, hits).value.events == src.events && AddHits(src, hits).value.seen == src.seen
  {
    if hits != [] {
      var n := |hits| - 1;
      HitKeys(src, hits[..n], alias);
      assert forall i :: 0 <= i < n ==> hits[..n][i] == hits[i];
    }
  }

  /** An event list, once each, in place. */
  lemma {:induction false} EventEntries(ref: string, list: seq<Event>, id: string)
    requires DistinctEvents(list)
    ensures var out := AddEvents(map[], ref, list);
            && (id in out <==> exists j :: 0 <= j < |list| && list[j].eventId == id)
            && forall j :: 0 <= j < |list| && list[j].eventId == id ==> out[id] == Source(ref, EventPointer(j))
  {
    if list != [] {
      var n := |list| - 1;
      EventEntries(ref, list[..n], id);
      assert forall j :: 0 <= j < n ==> list[..n][j] == list[j];
    }
  }

  /** Before the delivery is read there are no events. */
  ghost predicate EventsLater(src: Sources) {
    GetDelivery !in src.seen ==> src.events == map[]
  }

  lemma StepEventsLater(s: Snapshot, src: Sources, step: StepRecord, repeatedSearch: bool)
    requires EventsLater(src) && StepSources(s, src, step, repeatedSearch).Success?
    ensures EventsLater(StepSources(s, src, step, repeatedSearch).value)
  {
    if step.kind.SearchPolicy? || step.kind.ReadPolicyBundle? {
      HitKeys(src.(seen := src.seen + {step.kind}), step.result.content.matches, "");
    }
  }

  lemma ObjectAliases(s: Snapshot, src: Sources, step: StepRecord, repeatedSearch: bool, alias: string)
    requires StepSources(s, src, step, repeatedSearch).Success? && (step.kind.GetOrder? || step.kind.GetDelivery?)
    ensures alias in StepSources(s, src, step, repeatedSearch).value.aliases <==> alias in src.aliases || StepOffers(step, alias)
  {
    var ref, located := step.result.refs[0], step.result.content.located;
    assert located == LocatedIn(step);
    if step.kind.GetOrder? {
      PointerKeys(src.aliases, "E1", ref, ORDER_POINTERS, located, alias);
    } else {
      PointerKeys(src.aliases, "E2", ref, DELIVERY_POINTERS, located, alias);
    }
  }

  lemma PolicyAliases(s: Snapshot, src: Sources, step: StepRecord, repeatedSearch: bool, alias: string)
    requires StepSources(s, src, step, repeatedSearch).Success? && (step.kind.SearchPolicy? || step.kind.ReadPolicyBundle?)
    ensures alias in StepSources(s, src, step, repeatedSearch).value.aliases <==> alias in src.aliases || StepOffers(step, alias)
  {
    CheckedHits(s, step.kind, step.result);
    var hits := step.result.content.matches;
    assert hits == MatchesOf(step.result.content);
    HitKeys(src.(seen := src.seen + {step.kind}), hits, alias);
  }

  lemma StepAliases(s: Snapshot, src: Sources, step: StepRecord, repeatedSearch: bool, alias: string)
    requires StepSources(s, src, step, repeatedSearch).Success?
    ensures alias in StepSources(s, src, step, repeatedSearch).value.aliases <==> alias in src.aliases || StepOffers(step, alias)
  {
    if step.kind.GetOrder? || step.kind.GetDelivery? {
      ObjectAliases(s, src, step, repeatedSearch, alias);
    } else if step.kind.SearchPolicy? || step.kind.ReadPolicyBundle? {
      PolicyAliases(s, src, step, repeatedSearch, alias);
    }
  }

  lemma StepEvents(s: Snapshot, src: Sources, step: StepRecord, repeatedSearch: bool, id: string, source: Source)
    requires EventsLater(src) && StepSources(s, src, step, repeatedSearch).Success?
    ensures var events := StepSources(s, src, step, repeatedSearch).value.events;
            id in events && events[id] == source
            <==> (id in src.events && src.events[id] == source) || exists j: nat :: ReturnsEvent(s, step, j, id, source)
  {
    if step.kind.GetDelivery? {
      assert src.events == map[];
      EventEntries(step.result.refs[0], EventsIn(step), id);
      if exists j :: 0 <= j < |EventsIn(step)| && EventsIn(step)[j].eventId == id {
        var j: nat :| j < |EventsIn(step)| && EventsIn(step)[j].eventId == id;
        assert ReturnsEvent(s, step, j, id, Source(EvidenceRef(s, "delivery"), EventPointer(j)));
      }
    } else if IsTool(step.kind) && !step.kind.GetOrder? {
      HitKeys(src.(seen := src.seen + {step.kind}), step.result.content.matches, id);
    }
  }

  lemma {:induction false} AlwaysEventsLater(s: Snapshot, prior: seq<StepRecord>, repeatedSearch: bool)
    requires SourcesAfter(s, prior, repeatedSearch).Success?
    ensures EventsLater(SourcesAfter(s, prior, repeatedSearch).value)
  {
    if prior != [] {
      var n := |prior| - 1;
      AlwaysEventsLater(s, prior[..n], repeatedSearch);
      StepEventsLater(s, SourcesAfter(s, prior[..n], repeatedSearch).value, prior[n], repeatedSearch);
    }
  }

  lemma OfferedSnoc(s: Snapshot, prior: seq<StepRecord>, step: StepRecord, alias: string)
    ensures Offered(s, prior + [step], alias) <==> Offered(s, prior, alias) || StepOffers(step, alias)
  {
    var all := prior + [step];
    assert all[|prior|] == step && forall i :: 0 <= i < |prior| ==> all[i] == prior[i];
  }

  lemma OffersEventSnoc(s: Snapshot, prior: seq<StepRecord>, step: StepRecord, id: string, source: Source)
    ensures OffersEvent(s, prior + [step], id, source)
            <==> OffersEvent(s, prior, id, source) || exists j: nat :: ReturnsEvent(s, step, j, id, source)
  {
    var all := prior + [step];
    assert all[|prior|] == step && forall i :: 0 <= i < |prior| ==> all[i] == prior[i];
  }

  /** The aliases of a history are exactly what its ticket and its tool steps returned. */
  lemma {:induction false} AliasesExact(s: Snapshot, prior: seq<StepRecord>, repeatedSearch: bool, alias: string)
    requires SourcesAfter(s, prior, repeatedSearch).Success?
    ensures alias in SourcesAfter(s, prior, repeatedSearch).value.aliases <==> Offered(s, prior, alias)
  {
    if prior == [] {
      PointerKeys(map[], "T", EvidenceRef(s, "ticket"), TICKET_POINTERS, s.located, alias);
    } else {
      var n := |prior| - 1;
      AliasesExact(s, prior[..n], repeatedSearch, alias);
      StepAliases(s, SourcesAfter(s, prior[..n], repeatedSearch).value, prior[n], repeatedSearch, alias);
      OfferedSnoc(s, prior[..n], prior[n], alias);
      assert prior == prior[..n] + [prior[n]];
    }
  }

  /** Its events are exactly those its delivery read returned, each at its own place in the list. */
  lemma {:induction false} EventsExact(s: Snapshot, prior: seq<StepRecord>, repeatedSearch: bool, id: string, source: Source)
    requires SourcesAfter(s, prior, repeatedSearch).Success?
    ensures var events := SourcesAfter(s, prior, repeatedSearch).value.events;
            id in events && events[id] == source <==> OffersEvent(s, prior, id, source)
  {
    if prior != [] {
      var n := |prior| - 1;
      EventsExact(s, prior[..n], repeatedSearch, id, source);
      AlwaysEventsLater(s, prior[..n], repeatedSearch);
      StepEvents(s, SourcesAfter(s, prior[..n], repeatedSearch).value, prior[n], repeatedSearch, id, source);
      OffersEventSnoc(s, prior[..n], prior[n], id, source);
      assert prior == prior[..n] + [prior[n]];
    }
  }

  // ---------- when a claim compiles, and what it cites ----------

  /** The claim is about this event. */
  predicate NamesEvent(c: ClaimFields, id: string) {
    match c
    case Timing(_, e) => id == e
    case Dispute(_, delivered) => id == delivered
    case Critical(_, e) => id == e
    case Conflict(_, ids) => id in ids
    case Correction(recovery, corrected) => id == recovery || id == corrected
    case Missing(_) => false
    case TicketStatus(_) => false
  }

  ghost predicate Cites(src: Sources, claim: ModelClaim, source: Source) {
    || (exists a :: a in claim.aliases && a in src.aliases && src.aliases[a] == source)
    || (exists e :: NamesEvent(claim.fields, e) && e in src.events && src.events[e] == source)
  }

  /** A well-formed claim whose aliases and events are all known, one alias at least of a policy. */
  ghost predicate Compilable(src: Sources, claim: ModelClaim) {
    && ValidClaim(claim.fields) && Unique(claim.aliases, 1, 8)
    && (forall a :: a in claim.aliases ==> a in src.aliases)
    && (exists a :: a in claim.aliases && a in src.aliases && IsPolicy(src.aliases[a]))
    && (forall e :: NamesEvent(claim.fields, e) ==> e in src.events)
  }

  lemma EventIdsNamed(c: ClaimFields, id: string)
    ensures id in EventIds(c) <==> NamesEvent(c, id)
  {
  }

  lemma {:induction false} AppendExactly(start: seq<Source>, table: map<string, Source>, keys: seq<string>)
    ensures AppendAll(start, table, keys).Some? <==> forall k :: k in keys ==> k in table
    ensures AppendAll(start, table, keys).Some? ==>
              forall x :: x in AppendAll(start, table, keys).value <==> x in start || exists k :: k in keys && k in table && table[k] == x
  {
    if keys != [] {
      var n := |keys| - 1;
      AppendExactly(start, table, keys[..n]);
      assert keys == keys[..n] + [keys[n]];
    }
  }

  lemma ExpandExactly(src: Sources, claim: ModelClaim)
    ensures ExpandClaim(src, claim).Some? <==> Compilable(src, claim)
    ensures Compilable(src, claim) ==>
              && ExpandClaim(src, claim).value.fields == claim.fields
              && forall x :: x in ExpandClaim(src, claim).value.refs <==> Cites(src, claim, x)
  {
    AppendExactly([], src.aliases, claim.aliases);
    forall e ensures e in EventIds(claim.fields) <==> NamesEvent(claim.fields, e) {
      EventIdsNamed(claim.fields, e);
    }
    var own := AppendAll([], src.aliases, claim.aliases);
    if own.Some? {
      AppendExactly(own.value, src.events, EventIds(claim.fields));
    }
  }

  /** Two claims say the same thing of the same sources. */
  ghost predicate Repeats(src: Sources, a: ModelClaim, b: ModelClaim) {
    a.fields == b.fields && forall x :: Cites(src, a, x) <==> Cites(src, b, x)
  }

  lemma RepeatsIsIdentity(src: Sources, a: ModelClaim, b: ModelClaim)
    requires ExpandClaim(src, a).Some? && ExpandClaim(src, b).Some?
    ensures Repeats(src, a, b) <==> ClaimIdentity(ExpandClaim(src, a).value) == ClaimIdentity(ExpandClaim(src, b).value)
  {
    ExpandExactly(src, a);
    ExpandExactly(src, b);
    var first, second := ExpandClaim(src, a).value, ExpandClaim(src, b).value;
    assert forall x :: x in first.refs <==> x in ClaimIdentity(first).1;
    assert forall x :: x in second.refs <==> x in ClaimIdentity(second).1;
    if Repeats(src, a, b) {
      assert ClaimIdentity(first).1 == ClaimIdentity(second).1;
    }
  }

  ghost predicate AllCompilable(src: Sources, claims: seq<ModelClaim>) {
    && (forall i :: 0 <= i < |claims| ==> Compilable(src, claims[i]))
    && (forall i, j :: 0 <= i < j < |claims| ==> !Repeats(src, claims[i], claims[j]))
  }

  ghost predicate ExpandedTo(src: Sources, claims: seq<ModelClaim>, out: seq<Claim>) {
    |out| == |claims| && forall i :: 0 <= i < |claims| ==> ExpandClaim(src, claims[i]) == Some(out[i])
  }

  lemma LastRepeats(src: Sources, claims: seq<ModelClaim>, out: seq<Claim>, last: ModelClaim)
    requires ExpandedTo(src, claims, out) && ExpandClaim(src, last).Some?
    ensures (exists c :: c in out && ClaimIdentity(c) == ClaimIdentity(ExpandClaim(src, last).value))
            <==> exists i :: 0 <= i < |claims| && Repeats(src, claims[i], last)
  {
    ExpandExactly(src, last);
    forall i | 0 <= i < |claims|
      ensures Repeats(src, claims[i], last) <==> ClaimIdentity(out[i]) == ClaimIdentity(ExpandClaim(src, last).value)
    {
      ExpandExactly(src, claims[i]);
      RepeatsIsIdentity(src, claims[i], last);
    }
  }

  lemma CompilableSnoc(src: Sources, claims: seq<ModelClaim>, last: ModelClaim)
    ensures AllCompilable(src, claims + [last]) <==>
              && AllCompilable(src, claims) && Compilable(src, last)
              && forall i :: 0 <= i < |claims| ==> !Repeats(src, claims[i], last)
  {
    var all := claims + [last];
    assert all[|claims|] == last && forall i :: 0 <= i < |claims| ==> all[i] == claims[i];
  }

  lemma {:induction false} ExpandAllExactly(src: Sources, claims: seq<ModelClaim>)
    ensures ExpandClaims(src, claims).Some? <==> AllCompilable(src, claims)
    ensures ExpandClaims(src, claims).Some? ==> ExpandedTo(src, claims, ExpandClaims(src, claims).value)
  {
    if claims != [] {
      var n := |claims| - 1;
      ExpandAllExactly(src, claims[..n]);
      ExpandExactly(src, claims[n]);
      assert claims == claims[..n] + [claims[n]];
      CompilableSnoc(src, claims[..n], claims[n]);
      if ExpandClaims(src, claims[..n]).Some? && Compilable(src, claims[n]) {
        LastRepeats(src, claims[..n], ExpandClaims(src, claims[..n]).value, claims[n]);
      }
    }
  }

  // ---------- what is read of a claim ----------

  predicate EndsWith(s: string, t: string) {
    |t| <= |s| && s[|s| - |t|..] == t
  }

  /** The rendered claim opens with what is asserted and ends with whom it is asserted of, each under its own name. */
  predicate Reads(line: string, opening: string, ending: string) {
    opening <= line && EndsWith(line, ending)
  }

  lemma TwoParts(before: string, first: string, between: string, second: string)
    ensures Reads(before + first + between + second, before + first, between + second)
  {
    assert before + first + between + second == (before + first) + (between + second);
  }

  lemma EventParts(kind: string, list: string)
    ensures Reads("conflict " + kind + "; events [" + list + "]", "conflict " + kind, "; events [" + list + "]")
  {
    var ending := "; events [" + list + "]";
    assert "conflict " + kind + "; events [" + list + "]" == ("conflict " + kind) + ending;
  }

  lemma ClaimsAreReadable(c: ClaimFields)
    ensures var line := Describe(c);
            match c
            case Timing(test, id) => Reads(line, "timing " + test, "; event " + id)
            case Dispute(dispute, id) => Reads(line, "dispute " + dispute, "; delivered event " + id)
            case Critical(status, id) => Reads(line, "critical " + status, "; event " + id)
            case Missing(field) => line == "missing " + field
            case Conflict(kind, ids) => Reads(line, "conflict " + kind, "; events [" + Join(ids, ", ") + "]")
            case Correction(recovery, corrected) =>
              Reads(line, "correction; recovery event " + recovery, "; corrected event " + corrected)
            case TicketStatus(mode) => line == "ticket_status " + mode
  {
    match c {
      case Timing(test, id) => TwoParts("timing ", test, "; event ", id);
      case Dispute(dispute, id) => TwoParts("dispute ", dispute, "; delivered event ", id);
      case Critical(status, id) => TwoParts("critical ", status, "; event ", id);
      case Conflict(kind, ids) => EventParts(kind, Join(ids, ", "));
      case Correction(recovery, corrected) => TwoParts("correction; recovery event ", recovery, "; corrected event ", corrected);
      case _ =>
    }
  }

  // ---------- whole answers ----------

  /** The ticket status an action leads to; a conclusion keeps the one there is. */
  predicate RightTarget(v: Verdict, current: string) {
    match v.action
    case "request_information" => v.target == "awaiting_information"
    case "escalate" => v.target == "escalated"
    case _ => v.target == current
  }

  ghost predicate Sayable(s: Snapshot, src: Sources, model: Model) {
    && ValidVerdict(model.verdict) && RightTarget(model.verdict, s.ticket.status)
    && 1 <= |model.claims| <= 4 && AllCompilable(src, model.claims)
  }

  /** Claim by claim, the same statement with exactly the cited sources. */
  ghost predicate Says(src: Sources, said: seq<ModelClaim>, claims: seq<Claim>) {
    && |claims| == |said|
    && forall i :: 0 <= i < |claims| ==>
         claims[i].fields == said[i].fields && forall x :: x in claims[i].refs <==> Cites(src, said[i], x)
  }

  function CitedRefs(claims: seq<Claim>): set<string> {
    set i, r | 0 <= i < |claims| && r in claims[i].refs :: r.ref
  }

  lemma EvidenceCount(claims: seq<Claim>)
    ensures |EvidenceOf(claims)| == |CitedRefs(claims)|
  {
    EvidenceExact(claims);
    var list := EvidenceOf(claims);
    assert forall x :: x in list <==> x in CitedRefs(claims);
    DistinctCount(list, CitedRefs(claims));
  }

  lemma {:induction false} DistinctCount(list: seq<string>, items: set<string>)
    requires DistinctSeq(list) && forall x :: x in list <==> x in items
    ensures |list| == |items|
  {
    if list == [] {
      assert items == {};
    } else {
      var n := |list| - 1;
      assert forall x :: x in list[..n] <==> x in items - {list[n]};
      DistinctCount(list[..n], items - {list[n]});
    }
  }

  /**
    Exactly when an answer compiles, and into what. On a history with sources it is a protocol error unless it
    is sayable and cites at most thirty-two references; then it is too large or compiles, each claim citing
    exactly the sources of its aliases and of the events it is about.
  */
  lemma CompilesExactly(s: Snapshot, prior: seq<StepRecord>, model: Model, repeatedSearch: bool, fits: Proposal -> bool, src: Sources)
    requires SourcesAfter(s, prior, repeatedSearch) == Success(src)
    ensures var compiled := Compile(s, prior, model, repeatedSearch, fits);
            if !Sayable(s, src, model) then compiled == Failure(ModelProtocol)
            else
              exists claims ::
                && Says(src, model.claims, claims)
                && compiled == if |CitedRefs(claims)| > 32 then Failure(ModelProtocol)
                               else if !fits(Compiled(model.verdict, claims)) then Failure(TooLarge)
                               else Success(Compiled(model.verdict, claims))
  {
    ExpandAllExactly(src, model.claims);
    if Sayable(s, src, model) {
      var claims := ExpandClaims(src, model.claims).value;
      EvidenceCount(claims);
      forall i | 0 <= i < |claims|
        ensures claims[i].fields == model.claims[i].fields && forall x :: x in claims[i].refs <==> Cites(src, model.claims[i], x)
      {
        ExpandExactly(src, model.claims[i]);
      }
      assert Says(src, model.claims, claims);
    }
  }

  /** An event a claim is about was returned by this history's delivery read, and its place is among the claim's references. */
  lemma EventsAreCited(s: Snapshot, prior: seq<StepRecord>, model: Model, repeatedSearch: bool, fits: Proposal -> bool, i: nat, id: string)
    requires Compile(s, prior, model, repeatedSearch, fits).Success?
    requires i < |model.claims| && NamesEvent(model.claims[i].fields, id)
    ensures var p := Compile(s, prior, model, repeatedSearch, fits).value;
            && |p.claims| == |model.claims|
            && exists source :: OffersEvent(s, prior, id, source) && source in p.claims[i].refs
  {
    var src := SourcesAfter(s, prior, repeatedSearch).value;
    ExpandAllExactly(src, model.claims);
    ExpandExactly(src, model.claims[i]);
    EventsExact(s, prior, repeatedSearch, id, src.events[id]);
  }

  /** A claim about an event that this history did not return never compiles. */
  lemma UnreturnedEventNeverCompiles(s: Snapshot, prior: seq<StepRecord>, model: Model, repeatedSearch: bool, fits: Proposal -> bool, i: nat,
                                     id: string)
    requires i < |model.claims| && NamesEvent(model.claims[i].fields, id)
    requires forall source :: !OffersEvent(s, prior, id, source)
    ensures Compile(s, prior, model, repeatedSearch, fits).Failure?
    ensures SourcesAfter(s, prior, repeatedSearch).Success? ==> Compile(s, prior, model, repeatedSearch, fits) == Failure(ModelProtocol)
  {
    var built := SourcesAfter(s, prior, repeatedSearch);
    if built.Success? {
      CompilesExactly(s, prior, model, repeatedSearch, fits, built.value);
      if id in built.value.events {
        EventsExact(s, prior, repeatedSearch, id, built.value.events[id]);
      }
      assert !Compilable(built.value, model.claims[i]);
    }
  }
}
