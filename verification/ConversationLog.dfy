/**
  What the log of every exchange looks like (internal/runprotocol/conversation.go, protocol.go): a permission
  answers the intent before it, an observation reports on the dispatch before it in time and within its
  limits, and a refusal is the end of calling.
*/
module ConversationLog {
  import opened Wrappers
  import opened Identity
  import S = SupportSources
  import T = Tariff
  import opened Conversation

  predicate IsIntent(d: Deed) {
    d.Took? && d.frame.CallIntent?
  }

  predicate IsPermit(d: Deed) {
    d.Took? && d.frame.CallPermit?
  }

  predicate IsObservation(d: Deed) {
    d.Took? && d.frame.Observation?
  }

  /** A permission directly follows the intent it answers: the same call, parameters and tool. */
  predicate AnswersIntent(log: seq<Deed>, k: nat)
    requires k < |log| && IsPermit(log[k])
  {
    && k > 0 && IsIntent(log[k - 1])
    && var intent, permit := log[k - 1].frame, log[k].frame;
    && permit.sequence == intent.sequence && permit.subcall == intent.subcall && permit.parameterHash == intent.parameterHash
    && permit.toolId == intent.toolId
  }

  /** A granted call fits into what is left of the step, and into its own bound. */
  predicate FitsStep(log: seq<Deed>, k: nat, deadline: Time)
    requires k < |log| && IsPermit(log[k])
  {
    var permit := log[k].frame;
    permit.granted ==>
      && log[k].at + permit.callMs * 1_000_000 <= deadline && 1 <= permit.dispatchMs <= permit.callMs && permit.dispatchMs <= 30_000
      && permit.callMs <= if permit.subcall.Chat? || permit.subcall.QueryEmbedding? then 60_000 else 10_000
  }

  /** An observation directly follows its dispatch, which directly follows its permission; it comes in time and measures within the limits. */
  predicate ReportsCall(log: seq<Deed>, k: nat)
    requires k < |log| && IsObservation(log[k])
  {
    && k > 1 && log[k - 1].Sent? && IsPermit(log[k - 2])
    && var permit, report := log[k - 2].frame, log[k].frame;
    && permit.granted && report.sequence == permit.sequence && report.physicalCallId == permit.physicalCallId
    && log[k].at < log[k - 2].at + permit.callMs * 1_000_000
    && (report.usage.Some? ==>
          && (permit.subcall.Chat? || permit.subcall.QueryEmbedding?)
          && report.usage.value.input <= permit.inputLimit && report.usage.value.output <= permit.outputLimit)
  }

  /** The intents of an exchange are numbered from one and, after the first, belong to its tool call. */
  predicate Numbered(intents: seq<Frame>) {
    && (forall i :: 0 <= i < |intents| ==> intents[i].CallIntent? && intents[i].sequence == i + 1)
    && forall i :: 0 < i < |intents| ==> intents[i].toolId == intents[i - 1].toolId
  }

  function Intents(log: seq<Deed>): seq<Frame> {
    if log == [] then []
    else if IsIntent(log[|log| - 1]) then Intents(log[..|log| - 1]) + [log[|log| - 1].frame]
    else Intents(log[..|log| - 1])
  }

  /** A refused permission, or a report the business did not accept. */
  predicate Stops(d: Deed) {
    (IsPermit(d) && !d.frame.granted) || (IsObservation(d) && !d.frame.outcome.Accepted?)
  }

  /** After a stop no call is asked for and no success reported. */
  ghost predicate StoppedFor(log: seq<Deed>) {
    forall j, k :: 0 <= j < k < |log| && Stops(log[j]) ==> !IsIntent(log[k]) && !(IsResult(log[k]) && log[k].frame.success)
  }

  ghost predicate WellSpoken(log: seq<Deed>, deadline: Time) {
    && PermitsFit(log, deadline) && ReportsFit(log)
    && Numbered(Intents(log)) && StoppedFor(log)
  }

  // ---------- the invariant ----------

  /** What the conversation remembers of its last deeds. */
  predicate Remembers(s: View, log: seq<Deed>) {
    match s.phase
    case Blank => true
    case Idle => true
    case Intended(sequence, subcall, hash, tool) =>
      && log != [] && IsIntent(log[|log| - 1])
      && var intent := log[|log| - 1].frame;
      && intent.sequence == sequence && intent.subcall == subcall && intent.parameterHash == hash && intent.toolId == tool
    case Calling(permit, callDeadline) =>
      if permit.dispatchMs != 0 then |log| >= 1 && GrantedBy(log[|log| - 1], permit, callDeadline)
      else |log| >= 2 && log[|log| - 1].Sent? && GrantedBy(log[|log| - 2], permit, callDeadline)
  }

  /** The deed that granted this permission, apart from its dispatch window. */
  predicate GrantedBy(d: Deed, permit: Permit, callDeadline: Time) {
    && IsPermit(d) && d.frame.granted && d.frame.sequence == permit.sequence && d.frame.subcall == permit.subcall
    && d.frame.physicalCallId == permit.physicalCallId && d.frame.inputLimit == permit.inputLimit && d.frame.outputLimit == permit.outputLimit
    && callDeadline == d.at + d.frame.callMs * 1_000_000
  }

  ghost predicate Spoken(t: Talk) {
    var s, log := t.state, t.log;
    && WellSpoken(log, s.deadline) && |Intents(log)| == s.totalSequence
    && (!s.started ==> log == [] && s == FRESH.(closed := s.closed))
    && (s.started && !s.closed ==>
          && Remembers(s, log) && (StoppedOnce(log) ==> s.blocked)
          && (if s.phase.Calling? || s.phase.Intended? then !s.blocked && |Intents(log)| == s.callIndex + 1
              else s.blocked || |Intents(log)| == s.callIndex)
          && (Intents(log) != [] ==> Intents(log)[|Intents(log)| - 1].toolId == s.toolId))
  }

  ghost predicate StoppedOnce(log: seq<Deed>) {
    exists j :: 0 <= j < |log| && Stops(log[j])
  }

  lemma IntentsSnoc(log: seq<Deed>, d: Deed)
    ensures Intents(log + [d]) == if IsIntent(d) then Intents(log) + [d.frame] else Intents(log)
  {
    assert (log + [d])[..|log|] == log;
  }

  ghost predicate PermitsFit(log: seq<Deed>, deadline: Time) {
    forall k :: 0 <= k < |log| && IsPermit(log[k]) ==> AnswersIntent(log, k) && FitsStep(log, k, deadline)
  }

  ghost predicate ReportsFit(log: seq<Deed>) {
    forall k :: 0 <= k < |log| && IsObservation(log[k]) ==> ReportsCall(log, k)
  }

  lemma PermitsSnoc(log: seq<Deed>, d: Deed, deadline: Time)
    requires PermitsFit(log, deadline) && (IsPermit(d) ==> AnswersIntent(log + [d], |log|) && FitsStep(log + [d], |log|, deadline))
    ensures PermitsFit(log + [d], deadline)
  {
    var all := log + [d];
    forall k | 0 <= k < |all| && IsPermit(all[k]) ensures AnswersIntent(all, k) && FitsStep(all, k, deadline) {
      if k < |log| { assert all[k] == log[k] && AnswersIntent(log, k) && FitsStep(log, k, deadline); }
    }
  }

  lemma ReportsSnoc(log: seq<Deed>, d: Deed)
    requires ReportsFit(log) && (IsObservation(d) ==> ReportsCall(log + [d], |log|))
    ensures ReportsFit(log + [d])
  {
    var all := log + [d];
    forall k | 0 <= k < |all| && IsObservation(all[k]) ensures ReportsCall(all, k) {
      if k < |log| { assert all[k] == log[k] && ReportsCall(log, k); }
    }
  }

  lemma StopsSnoc(log: seq<Deed>, d: Deed)
    requires StoppedFor(log) && (StoppedOnce(log) ==> !IsIntent(d) && !(IsResult(d) && d.frame.success))
    ensures StoppedFor(log + [d])
  {
    var all := log + [d];
    forall j, k | 0 <= j < k < |all| && Stops(all[j]) ensures !IsIntent(all[k]) && !(IsResult(all[k]) && all[k].frame.success) {
      assert all[j] == log[j] && (k < |log| ==> all[k] == log[k]);
    }
  }

  /** What the log keeps when a deed is added, given what the new deed itself satisfies. */
  lemma WellSpokenSnoc(log: seq<Deed>, d: Deed, deadline: Time)
    requires WellSpoken(log, deadline)
    requires IsPermit(d) ==> AnswersIntent(log + [d], |log|) && FitsStep(log + [d], |log|, deadline)
    requires IsObservation(d) ==> ReportsCall(log + [d], |log|)
    requires IsIntent(d) ==> Numbered(Intents(log) + [d.frame])
    requires StoppedOnce(log) ==> !IsIntent(d) && !(IsResult(d) && d.frame.success)
    ensures WellSpoken(log + [d], deadline)
  {
    IntentsSnoc(log, d);
    PermitsSnoc(log, d, deadline);
    ReportsSnoc(log, d);
    StopsSnoc(log, d);
  }

  lemma StoppedSnoc(log: seq<Deed>, d: Deed)
    ensures StoppedOnce(log + [d]) <==> StoppedOnce(log) || Stops(d)
  {
    var all := log + [d];
    assert all[|log|] == d && forall j :: 0 <= j < |log| ==> all[j] == log[j];
  }

  // ---------- every step keeps it ----------

  lemma SpokenIntent(t: Talk, f: Frame, now: Time)
    requires Spoken(t) && t.state.started && !t.state.closed && t.state.head.Some? && f.CallIntent? && Intend(t.state, f).Some?
    ensures Spoken(Talk(Intend(t.state, f).value.(lastTime := Some(now)), t.log + [Took(f, now)]))
  {
    var d := Took(f, now);
    IntentsSnoc(t.log, d);
    StoppedSnoc(t.log, d);
    assert Numbered(Intents(t.log) + [f]);
    WellSpokenSnoc(t.log, d, t.state.deadline);
  }

  lemma SpokenPermit(t: Talk, f: Frame, now: Time)
    requires Spoken(t) && t.state.started && !t.state.closed && f.CallPermit? && ValidFrame(f) && Grant(t.state, f, now).Some?
    ensures Spoken(Talk(Grant(t.state, f, now).value.(lastTime := Some(now)), t.log + [Took(f, now)]))
  {
    var d := Took(f, now);
    var all := t.log + [d];
    IntentsSnoc(t.log, d);
    StoppedSnoc(t.log, d);
    assert all[|t.log| - 1] == t.log[|t.log| - 1];
    WellSpokenSnoc(t.log, d, t.state.deadline);
  }

  lemma SpokenObservation(t: Talk, f: Frame, now: Time)
    requires Spoken(t) && t.state.started && !t.state.closed && f.Observation? && Observe(t.state, f, now).Some?
    ensures Spoken(Talk(Observe(t.state, f, now).value.(lastTime := Some(now)), t.log + [Took(f, now)]))
  {
    var d := Took(f, now);
    var all := t.log + [d];
    IntentsSnoc(t.log, d);
    StoppedSnoc(t.log, d);
    assert all[|t.log| - 1] == t.log[|t.log| - 1] && all[|t.log| - 2] == t.log[|t.log| - 2];
    WellSpokenSnoc(t.log, d, t.state.deadline);
  }

  lemma SpokenResult(t: Talk, f: Frame, now: Time)
    requires Spoken(t) && t.state.started && !t.state.closed && t.state.head.Some? && f.StepResult? && Finish(t.state, f).Some?
    ensures Spoken(Talk(Finish(t.state, f).value.(lastTime := Some(now)), t.log + [Took(f, now)]))
  {
    var d := Took(f, now);
    IntentsSnoc(t.log, d);
    WellSpokenSnoc(t.log, d, t.state.deadline);
  }

  lemma SpokenSent(t: Talk, at: Time)
    requires Spoken(t) && t.state.phase.Calling? && MayDispatch(t.state, t.state.phase.permit.physicalCallId, at) && t.state.started
    ensures Spoken(Talk(Dispatched(t.state, t.state.phase.permit.physicalCallId, at).0, t.log + [Sent(t.state.phase.permit, at)]))
  {
    var d := Sent(t.state.phase.permit, at);
    var all := t.log + [d];
    IntentsSnoc(t.log, d);
    StoppedSnoc(t.log, d);
    assert all[|all| - 2] == t.log[|t.log| - 1];
    WellSpokenSnoc(t.log, d, t.state.deadline);
  }

  lemma SpokenTaken(t: Talk, f: Frame, now: Time)
    requires Spoken(t) && Inv(t) && t.state.started && ValidFrame(f) && Advance(t.state, f, now).Some?
    ensures Spoken(Talk(Advance(t.state, f, now).value.(lastTime := Some(now)), t.log + [Took(f, now)]))
  {
    match f {
      case CallIntent(_, _, _, _, _) => SpokenIntent(t, f, now);
      case CallPermit(_, _, _, _, _, _, _, _, _, _, _, _) => SpokenPermit(t, f, now);
      case Observation(_, _, _, _, _) => SpokenObservation(t, f, now);
      case StepResult(_, _) => SpokenResult(t, f, now);
      case ExecuteStep(_, _) =>
    }
  }

  lemma SpokenOpened(t: Talk, f: Frame, now: Time)
    requires Spoken(t) && !t.state.started && Advance(t.state, f, now).Some?
    ensures Spoken(Talk(Advance(t.state, f, now).value.(lastTime := Some(now)), t.log + [Took(f, now)]))
  {
    var d := Took(f, now);
    IntentsSnoc([], d);
    StoppedSnoc([], d);
    assert t.log + [d] == [d] == [] + [d];
    WellSpokenSnoc([], d, Advance(t.state, f, now).value.deadline);
  }

  lemma SpokenNext(t: Talk, input: Input)
    requires Spoken(t) && Inv(t)
    ensures Spoken(Respond(t, input))
  {
    match input {
      case Frame(f, now) =>
        if ValidFrame(f) && Advance(t.state, f, now).Some? {
          if t.state.started { SpokenTaken(t, f, now); } else { SpokenOpened(t, f, now); }
        }
      case Send(id, at) =>
        if MayDispatch(t.state, id, at) { SpokenSent(t, at); }
      case Cancel =>
    }
  }

  lemma {:induction false} AlwaysSpoken(inputs: seq<Input>)
    ensures Spoken(Play(inputs))
  {
    if inputs != [] {
      var n := |inputs| - 1;
      AlwaysSpoken(inputs[..n]);
      AlwaysInv(inputs[..n]);
      SpokenNext(Play(inputs[..n]), inputs[n]);
    }
  }

  // ---------- what every exchange keeps to ----------

  /** A permission answers the intent before it and fits, with its whole call, into what is left of the step. */
  lemma PermitsAnswerIntents(inputs: seq<Input>, k: nat)
    requires k < |Play(inputs).log| && IsPermit(Play(inputs).log[k])
    ensures var log := Play(inputs).log;
            && AnswersIntent(log, k) && log[0].Took? && log[0].frame.ExecuteStep?
            && FitsStep(log, k, log[0].at + log[0].frame.remainingMs * 1_000_000)
  {
    AlwaysSpoken(inputs);
    AlwaysInv(inputs);
  }

  /** An observation reports on the call that was just dispatched, before its own deadline, and never more usage than was permitted. */
  lemma ObservationsReportCalls(inputs: seq<Input>, k: nat)
    requires k < |Play(inputs).log| && IsObservation(Play(inputs).log[k])
    ensures ReportsCall(Play(inputs).log, k)
  {
    AlwaysSpoken(inputs);
  }

  /** After a refusal no call is asked for and no success reported; the calls of an exchange are numbered within one tool call. */
  lemma RefusalEndsCalling(inputs: seq<Input>)
    ensures StoppedFor(Play(inputs).log) && Numbered(Intents(Play(inputs).log))
  {
    AlwaysSpoken(inputs);
  }
}
