/**
  What an accepted read says (internal/run/support_sources.go): the object the snapshot froze, at the revision
  it froze, or that there was none then; and only paragraphs of the ticket's own policy.
*/
module SupportReads {
  import opened Wrappers
  import opened Identity
  import opened BusinessModel
  import opened SupportSources

  /** The business facts of which accepted contents would be copies. */
  function Seen(s: Snapshot, order: Option<Order>, delivery: Option<Delivery>): Facts {
    Facts(s.ticket, order, delivery, s.vector.policy, s.vector.index)
  }

  /** The snapshot's own vector is that of some facts: missing relations carry no revision, and a delivery hangs on an order. */
  predicate Frozen(s: Snapshot) {
    && Bound(s) && s.vector.order.exists' == s.vector.order.revision.Some? && s.vector.delivery.exists' == s.vector.delivery.revision.Some?
    && (s.vector.order.exists' ==> s.vector.order.id.Some?) && (s.vector.delivery.exists' ==> s.vector.delivery.id.Some?)
    && (!s.vector.order.exists' ==> s.vector.delivery == NO_RELATION)
  }

  /**
    What a Run reads is what was captured: if its order and its delivery were both read and accepted, the
    objects returned, or their absence, have exactly the version vector the snapshot was taken with.
  */
  lemma ReadsHaveTheVector(s: Snapshot, order: ToolResult, delivery: ToolResult)
    requires Frozen(s) && SupportTool(s, GetOrder, order).Success? && SupportTool(s, GetDelivery, delivery).Success?
    ensures order.content.Evidence? && delivery.content.Evidence?
    ensures VectorOf(Seen(s, order.content.order, delivery.content.delivery)) == s.vector
  {
  }

  /** A returned object is the tenant's own and hangs on the objects before it; an absence is reported for the right reason. */
  lemma ReadsAreOwn(s: Snapshot, kind: StepKind, result: ToolResult)
    requires SupportTool(s, kind, result).Success? && (kind.GetOrder? || kind.GetDelivery?)
    ensures var e := result.content;
            && e.Evidence? && SupportTool(s, kind, result).value == (e.order.None? && e.delivery.None?)
            && (kind.GetOrder? && e.order.Some? ==>
                  e.order.value.tenantId == s.tenantId && Some(e.order.value.orderId) == s.ticket.orderId)
            && (kind.GetDelivery? && e.delivery.Some? ==>
                  && e.delivery.value.tenantId == s.tenantId && Some(e.delivery.value.orderId) == s.ticket.orderId
                  && Some(e.delivery.value.deliveryId) == s.vector.delivery.id)
            && (e.order.None? && e.delivery.None? ==>
                  e.missingReason == if (if kind.GetOrder? then s.ticket.orderId else s.vector.delivery.id).None? then "not_associated"
                                     else "record_not_found")
  {
  }

  /** Every returned paragraph belongs to the published index and to the policy version of the ticket, and says something. */
  lemma ParagraphsAreCurrent(s: Snapshot, kind: StepKind, result: ToolResult, i: nat)
    requires SupportTool(s, kind, result).Success? && (kind.SearchPolicy? || kind.ReadPolicyBundle?)
    requires i < |MatchesOf(result.content)|
    ensures var hits := MatchesOf(result.content);
            && |hits| == |result.refs| && (if kind.SearchPolicy? then |hits| <= 3 else |hits| == 20)
            && PolicyAlias(hits[i].chunkId) && hits[i].indexId == s.indexId && hits[i].policyVersion == s.ticket.policyVersion
            && hits[i].text != "" && hits[i].source != "" && (kind.ReadPolicyBundle? ==> |hits[i].text| <= 768)
            && result.refs[i] == hits[i].evidenceRef == PolicyRef(s, hits[i].chunkId)
            && forall j :: 0 <= j < |hits| && j != i ==> hits[j].chunkId != hits[i].chunkId
  {
    BundleAliasesAreAliases();
    if kind.ReadPolicyBundle? {
      assert ValidBundle(s, result);
      assert HitFor(s, MatchesOf(result.content)[i], BundleAliases()[i], result.refs[i]);
      forall j | 0 <= j < |result.refs| && j != i ensures MatchesOf(result.content)[j].chunkId != MatchesOf(result.content)[i].chunkId {
        assert HitFor(s, MatchesOf(result.content)[j], BundleAliases()[j], result.refs[j]);
        BundleDistinct(i, j);
      }
    } else {
      assert HitFor(s, MatchesOf(result.content)[i], MatchesOf(result.content)[i].chunkId, result.refs[i]);
    }
  }

  lemma BundleDistinct(i: nat, j: nat)
    requires i < 20 && j < 20 && i != j
    ensures BundleAliases()[i] != BundleAliases()[j]
  {
    var a, b := BundleAliases()[i], BundleAliases()[j];
    assert a[1] != b[1] || a[2] != b[2] || a[4] != b[4];
  }

  // ---------- a paragraph read twice is the same paragraph ----------

  ghost predicate ReturnsHit(step: StepRecord, hit: Hit) {
    (step.kind.SearchPolicy? || step.kind.ReadPolicyBundle?) && hit in MatchesOf(step.result.content)
  }

  /** Every paragraph of the list is remembered, with its text. */
  ghost predicate Remembered(src: Sources, hit: Hit) {
    hit.chunkId in src.policies && SameHit(src.policies[hit.chunkId], hit)
  }

  lemma {:induction false} HitsRemembered(src: Sources, hits: seq<Hit>)
    requires AddHits(src, hits).Success?
    ensures var out := AddHits(src, hits).value;
            && (forall hit :: hit in hits ==> Remembered(out, hit))
            && (forall hit :: Remembered(src, hit) ==> Remembered(out, hit))
  {
    if hits != [] {
      var n := |hits| - 1;
      HitsRemembered(src, hits[..n]);
      assert hits == hits[..n] + [hits[n]];
    }
  }

  lemma StepRemembered(s: Snapshot, src: Sources, step: StepRecord, repeatedSearch: bool)
    requires StepSources(s, src, step, repeatedSearch).Success?
    ensures var out := StepSources(s, src, step, repeatedSearch).value;
            && (forall hit :: ReturnsHit(step, hit) ==> Remembered(out, hit))
            && (forall hit :: Remembered(src, hit) ==> Remembered(out, hit))
  {
    if step.kind.SearchPolicy? || step.kind.ReadPolicyBundle? {
      CheckedHits(s, step.kind, step.result);
      HitsRemembered(src.(seen := src.seen + {step.kind}), step.result.content.matches);
    }
  }

  lemma {:induction false} HistoryRemembered(s: Snapshot, prior: seq<StepRecord>, repeatedSearch: bool, i: nat, hit: Hit)
    requires SourcesAfter(s, prior, repeatedSearch).Success? && i < |prior| && ReturnsHit(prior[i], hit)
    ensures Remembered(SourcesAfter(s, prior, repeatedSearch).value, hit)
  {
    var n := |prior| - 1;
    StepRemembered(s, SourcesAfter(s, prior[..n], repeatedSearch).value, prior[n], repeatedSearch);
    if i < n {
      HistoryRemembered(s, prior[..n], repeatedSearch, i, hit);
    }
  }

  /** Whenever a history returns a paragraph again, it says the same again; only its distance may differ. */
  lemma RepeatedParagraphsAgree(s: Snapshot, prior: seq<StepRecord>, repeatedSearch: bool, i: nat, first: Hit, j: nat, second: Hit)
    requires SourcesAfter(s, prior, repeatedSearch).Success? && i < |prior| && j < |prior|
    requires ReturnsHit(prior[i], first) && ReturnsHit(prior[j], second) && first.chunkId == second.chunkId
    ensures first.text == second.text && first.source == second.source && first.policyVersion == second.policyVersion
    ensures first.evidenceRef == second.evidenceRef && first.indexId == second.indexId
  {
    HistoryRemembered(s, prior, repeatedSearch, i, first);
    HistoryRemembered(s, prior, repeatedSearch, j, second);
  }
}
