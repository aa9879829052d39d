/**
  Whole exchanges that succeed (internal/runprotocol/conversation.go): for every kind of step, with its calls
  written out, and no others.
*/
module ConversationRuns {
  import opened Wrappers
  import opened Identity
  import S = SupportSources
  import T = Tariff
  import opened Conversation

  /** The calls of each kind of step, in order. */
  predicate Registered(kind: S.StepKind, calls: seq<T.Subcall>) {
    match kind
    case GetOrder => calls == [T.GetOrder]
    case GetDelivery => calls == [T.GetDelivery]
    case SearchPolicy => calls == [T.ProfileVersion, T.ProfileTags, T.QueryEmbedding, T.SearchPolicy]
    case ModelProposal => calls == [T.Chat]
    case ProtocolCorrection => calls == [T.Chat]
    case _ => calls == []
  }

  /** The identities an exchange is given from outside: a digest of the parameters, the tool call, and one per physical call. */
  datatype Given = Given(head: Head, hash: string, tool: string, ids: seq<string>)

  predicate Usable(g: Given, calls: seq<T.Subcall>) {
    && Registered(g.head.stepKind, calls) && ValidUUID(g.head.requestId) && ValidHash(g.hash) && ValidUUID(g.tool)
    && |g.ids| == |calls| && (forall i :: 0 <= i < |g.ids| ==> ValidUUID(g.ids[i]))
    && forall i, j :: 0 <= i < j < |g.ids| ==> g.ids[i] != g.ids[j]
  }

  function ToolOf(g: Given, call: T.Subcall): string {
    if call.Chat? then "" else g.tool
  }

  // ---------- one call, all of it at once ----------

  function Ask(g: Given, calls: seq<T.Subcall>, n: nat): Input
    requires n < |calls|
  {
    Frame(CallIntent(g.head, n + 1, calls[n], g.hash, ToolOf(g, calls[n])), 0)
  }

  function Allow(g: Given, calls: seq<T.Subcall>, n: nat): Input
    requires n < |calls| == |g.ids|
  {
    Frame(CallPermit(g.head, n + 1, calls[n], g.hash, ToolOf(g, calls[n]), g.ids[n], true, "", 1, 1, 0, 0), 0)
  }

  function Answer(g: Given, n: nat): Input
    requires n < |g.ids|
  {
    Frame(Observation(g.head, n + 1, g.ids[n], Accepted, None), 0)
  }

  function Calls(g: Given, calls: seq<T.Subcall>, n: nat): seq<Input>
    requires n <= |calls| == |g.ids|
  {
    if n == 0 then [Frame(ExecuteStep(g.head, 180000), 0)]
    else Calls(g, calls, n - 1) + [Ask(g, calls, n - 1)] + [Allow(g, calls, n - 1)] + [Send(g.ids[n - 1], 0)] + [Answer(g, n - 1)]
  }

  function Exchange(g: Given, calls: seq<T.Subcall>): seq<Input>
    requires |calls| == |g.ids|
  {
    Calls(g, calls, |calls|) + [Frame(StepResult(g.head, true), 0)]
  }

  ghost predicate Idling(g: Given, calls: seq<T.Subcall>, n: nat, t: Talk)
    requires n <= |calls| == |g.ids|
  {
    var s := t.state;
    && s.started && !s.closed && !s.blocked && s.phase.Idle? && s.head == Some(g.head) && s.deadline == 180000 * MS
    && s.lastTime == Some(0) && s.callIndex == n && s.totalSequence == n && s.seenCalls == (set i | 0 <= i < n :: g.ids[i])
    && (n > 0 ==> s.toolId == ToolOf(g, calls[n - 1]))
  }

  lemma PlaySnoc(inputs: seq<Input>, input: Input)
    ensures Play(inputs + [input]) == Respond(Play(inputs), input)
  {
    assert (inputs + [input])[..|inputs|] == inputs;
  }

  lemma RegisteredIs(kind: S.StepKind, calls: seq<T.Subcall>)
    ensures Registered(kind, calls) <==> calls == Subcalls(kind)
  {
  }

  lemma SameTool(g: Given, calls: seq<T.Subcall>, n: nat)
    requires Usable(g, calls) && 0 < n < |calls|
    ensures ToolOf(g, calls[n]) == ToolOf(g, calls[n - 1])
  {
  }

  lemma CallTaken(g: Given, calls: seq<T.Subcall>, n: nat, t: Talk)
    requires Usable(g, calls) && n < |calls| && Idling(g, calls, n, t)
    ensures var t1 := Respond(Respond(t, Ask(g, calls, n)), Allow(g, calls, n));
            Idling(g, calls, n + 1, Respond(Respond(t1, Send(g.ids[n], 0)), Answer(g, n)))
  {
    RegisteredIs(g.head.stepKind, calls);
    if n > 0 {
      SameTool(g, calls, n);
    }
    var asked := Respond(t, Ask(g, calls, n));
    assert asked.state == t.state.(toolId := ToolOf(g, calls[n]), totalSequence := n + 1,
                                   phase := Intended(n + 1, calls[n], g.hash, ToolOf(g, calls[n])));
    var allowed := Respond(asked, Allow(g, calls, n));
    assert g.ids[n] !in t.state.seenCalls;
    assert allowed.state.phase == Calling(Permit(n + 1, calls[n], g.ids[n], 1, 0, 0), MS);
    var sent := Respond(allowed, Send(g.ids[n], 0));
    assert sent.state.phase == Calling(Permit(n + 1, calls[n], g.ids[n], 0, 0, 0), MS) && !sent.state.closed;
    assert (set i | 0 <= i < n + 1 :: g.ids[i]) == (set i | 0 <= i < n :: g.ids[i]) + {g.ids[n]};
  }

  lemma {:induction false} CallsTaken(g: Given, calls: seq<T.Subcall>, n: nat)
    requires Usable(g, calls) && n <= |calls|
    ensures Idling(g, calls, n, Play(Calls(g, calls, n)))
  {
    if n == 0 {
      PlaySnoc([], Frame(ExecuteStep(g.head, 180000), 0));
      assert [] + Calls(g, calls, 0) == Calls(g, calls, 0);
    } else {
      var before := Calls(g, calls, n - 1);
      CallsTaken(g, calls, n - 1);
      CallTaken(g, calls, n - 1, Play(before));
      PlaySnoc(before, Ask(g, calls, n - 1));
      PlaySnoc(before + [Ask(g, calls, n - 1)], Allow(g, calls, n - 1));
      PlaySnoc(before + [Ask(g, calls, n - 1)] + [Allow(g, calls, n - 1)], Send(g.ids[n - 1], 0));
      PlaySnoc(before + [Ask(g, calls, n - 1)] + [Allow(g, calls, n - 1)] + [Send(g.ids[n - 1], 0)], Answer(g, n - 1));
    }
  }

  /** The conversation ended in a reported success. */
  predicate Succeeded(t: Talk) {
    t.log != [] && IsResult(t.log[|t.log| - 1]) && t.log[|t.log| - 1].frame.success
  }

  /** Every kind of step has an exchange that succeeds with exactly its registered calls. */
  lemma ExchangeSucceeds(g: Given, calls: seq<T.Subcall>)
    requires Usable(g, calls)
    ensures var t := Play(Exchange(g, calls));
            && Succeeded(t) && t.state.closed && |SentCalls(t.log)| == |calls|
            && forall i :: 0 <= i < |calls| ==> SentCalls(t.log)[i].subcall == calls[i]
  {
    var result := Frame(StepResult(g.head, true), 0);
    RegisteredIs(g.head.stepKind, calls);
    CallsTaken(g, calls, |calls|);
    PlaySnoc(Calls(g, calls, |calls|), result);
    SuccessOnlyRegistered(Exchange(g, calls));
  }

  lemma SuccessOnlyRegistered(inputs: seq<Input>)
    requires Succeeded(Play(inputs))
    ensures var t := Play(inputs);
            && t.state.head.Some?
            && var calls := Subcalls(t.state.head.value.stepKind);
               && |SentCalls(t.log)| == |Answers(t.log)| == |calls|
               && forall i :: 0 <= i < |calls| ==> SentCalls(t.log)[i].subcall == calls[i] && Answers(t.log)[i].1
  {
    SuccessIsComplete(inputs, |Play(inputs).log| - 1);
  }

  /** And no exchange succeeds with any others: the calls of a success are the registered ones of its step, each answered and accepted. */
  lemma SuccessIsRegistered(inputs: seq<Input>)
    requires Succeeded(Play(inputs))
    ensures var t := Play(inputs);
            && t.state.head.Some? && |Answers(t.log)| == |SentCalls(t.log)|
            && Registered(t.state.head.value.stepKind, seq(|SentCalls(t.log)|, i requires 0 <= i < |SentCalls(t.log)| => SentCalls(t.log)[i].subcall))
            && forall i :: 0 <= i < |Answers(t.log)| ==> Answers(t.log)[i].1
  {
    SuccessOnlyRegistered(inputs);
    var t := Play(inputs);
    var sent := seq(|SentCalls(t.log)|, i requires 0 <= i < |SentCalls(t.log)| => SentCalls(t.log)[i].subcall);
    RegisteredIs(t.state.head.value.stepKind, sent);
    assert sent == Subcalls(t.state.head.value.stepKind);
  }
}
