/**
  One supervised step exchange with the executor (internal/runprotocol/conversation.go and the
  frame rules of protocol.go). A rejected frame closes the conversation for good. Times are
  nanoseconds of the caller's monotonic clock.
*/
module Conversation {
  import opened Wrappers
  import opened Identity
  import S = SupportSources
  import T = Tariff

  type Time = int

  const MS: Time := 1_000_000
  const MAX_INTEGER := 0x1F_FFFF_FFFF_FFFF

  datatype Head = Head(requestId: string, binding: string, stepKind: S.StepKind)

  datatype BusinessOutcome = Accepted | Rejected | Unknown

  datatype Frame =
    | ExecuteStep(head: Head, remainingMs: int)
    | CallIntent(head: Head, sequence: int, subcall: T.Subcall, parameterHash: string, toolId: string)
    | CallPermit(head: Head, sequence: int, subcall: T.Subcall, parameterHash: string, toolId: string, physicalCallId: string,
                 granted: bool, errorCode: string, dispatchMs: int, callMs: int, inputLimit: int, outputLimit: int)
    | Observation(head: Head, sequence: int, physicalCallId: string, outcome: BusinessOutcome, usage: Option<T.Counts>)
    | StepResult(head: Head, success: bool)

  function Subcalls(kind: S.StepKind): seq<T.Subcall> {
    match kind
    case GetOrder => [T.GetOrder]
    case GetDelivery => [T.GetDelivery]
    case SearchPolicy => [T.ProfileVersion, T.ProfileTags, T.QueryEmbedding, T.SearchPolicy]
    case ModelProposal => [T.Chat]
    case ProtocolCorrection => [T.Chat]
    case _ => []
  }

  predicate Between(value: int, low: int, high: int) {
    low <= value <= high
  }

  predicate ValidCall(head: Head, sequence: int, subcall: T.Subcall, parameterHash: string, toolId: string) {
    && Between(sequence, 1, 44) && subcall in Subcalls(head.stepKind) && ValidHash(parameterHash)
    && (if subcall.Chat? then toolId == "" else ValidUUID(toolId))
  }

  predicate ValidPermit(f: Frame)
    requires f.CallPermit?
  {
    && Between(f.inputLimit, 0, MAX_INTEGER) && Between(f.outputLimit, 0, 1024) && f.inputLimit <= MAX_INTEGER - f.outputLimit
    && if !f.granted then
         f.physicalCallId == "" && f.errorCode != "" && f.dispatchMs == 0 && f.callMs == 0 && f.inputLimit == 0 && f.outputLimit == 0
       else
         && (f.subcall.Chat? || f.subcall.QueryEmbedding? || (f.inputLimit == 0 && f.outputLimit == 0))
         && ValidUUID(f.physicalCallId) && f.errorCode == "" && Between(f.dispatchMs, 1, 30000)
         && Between(f.callMs, 1, if f.subcall.Chat? || f.subcall.QueryEmbedding? then 60000 else 10000) && f.dispatchMs <= f.callMs
  }

  predicate ValidUsage(u: T.Counts) {
    && Between(u.input, 0, MAX_INTEGER) && Between(u.output, 0, 1024) && Between(u.cached, 0, u.input) && u.input <= MAX_INTEGER - u.output
  }

  predicate ValidFrame(f: Frame) {
    && ValidUUID(f.head.requestId)
    && match f
       case ExecuteStep(_, ms) => Between(ms, 1, 180000)
       case CallIntent(head, n, subcall, hash, tool) => ValidCall(head, n, subcall, hash, tool)
       case CallPermit(head, n, subcall, hash, tool, _, _, _, _, _, _, _) => ValidCall(head, n, subcall, hash, tool) && ValidPermit(f)
       case Observation(_, n, id, outcome, usage) =>
         && Between(n, 1, 44) && ValidUUID(id) && (outcome.Unknown? ==> usage.None?) && (usage.Some? ==> ValidUsage(usage.value))
       case StepResult(_, _) => true
  }

  /** What the conversation waits for, with the frame it holds. A consumed permission has no dispatch window left. */
  datatype Phase =
    | Blank | Idle
    | Intended(sequence: int, subcall: T.Subcall, parameterHash: string, toolId: string)
    | Calling(permit: Permit, callDeadline: Time)

  datatype Permit = Permit(sequence: int, subcall: T.Subcall, physicalCallId: string, dispatchMs: int, inputLimit: int, outputLimit: int)

  datatype View = View(started: bool, closed: bool, blocked: bool, phase: Phase, head: Option<Head>, deadline: Time,
                       lastTime: Option<Time>, callIndex: nat, seenCalls: set<string>, totalSequence: int, toolId: string)

  const FRESH := View(false, false, false, Blank, None, 0, None, 0, {}, 0, "")

  // ---------- one frame ----------

  function Intend(s: View, f: Frame): Option<View>
    requires f.CallIntent? && s.head.Some?
  {
    var calls := Subcalls(s.head.value.stepKind);
    if !s.phase.Idle? || s.blocked || s.callIndex >= |calls| || f.subcall != calls[s.callIndex] || f.sequence != s.totalSequence + 1
       || (s.callIndex > 0 && f.toolId != s.toolId) then None
    else Some(s.(toolId := f.toolId, phase := Intended(f.sequence, f.subcall, f.parameterHash, f.toolId), totalSequence := f.sequence))
  }

  function Grant(s: View, f: Frame, now: Time): Option<View>
    requires f.CallPermit?
  {
    if s.phase != Intended(f.sequence, f.subcall, f.parameterHash, f.toolId) then None
    else if !f.granted then Some(s.(blocked := true, phase := Idle))
    else if f.physicalCallId in s.seenCalls || now + f.callMs * MS > s.deadline then None
    else
      var permit := Permit(f.sequence, f.subcall, f.physicalCallId, f.dispatchMs, f.inputLimit, f.outputLimit);
      Some(s.(seenCalls := s.seenCalls + {f.physicalCallId}, phase := Calling(permit, now + f.callMs * MS)))
  }

  function Observe(s: View, f: Frame, now: Time): Option<View>
    requires f.Observation?
  {
    if !s.phase.Calling? || s.phase.permit.dispatchMs != 0 || f.sequence != s.phase.permit.sequence
       || f.physicalCallId != s.phase.permit.physicalCallId || now >= s.phase.callDeadline then None
    else if f.usage.Some?
            && ((!s.phase.permit.subcall.Chat? && !s.phase.permit.subcall.QueryEmbedding?)
                || f.usage.value.input > s.phase.permit.inputLimit || f.usage.value.output > s.phase.permit.outputLimit) then None
    else Some(s.(phase := Idle, callIndex := s.callIndex + 1, blocked := !f.outcome.Accepted?))
  }

  function Finish(s: View, f: Frame): Option<View>
    requires f.StepResult? && s.head.Some?
  {
    if !s.phase.Idle? || (s.blocked && f.success) || (f.success && s.callIndex != |Subcalls(s.head.value.stepKind)|) then None
    else Some(s.(closed := true))
  }

  function Advance(s: View, f: Frame, now: Time): Option<View> {
    if s.closed || (s.lastTime.Some? && now < s.lastTime.value) then None
    else if !s.started then
      if !f.ExecuteStep? then None
      else Some(s.(started := true, phase := Idle, head := Some(f.head), deadline := now + f.remainingMs * MS, seenCalls := {}))
    else if s.head != Some(f.head) || now >= s.deadline then None
    else
      match f
      case CallIntent(_, _, _, _, _) => Intend(s, f)
      case CallPermit(_, _, _, _, _, _, _, _, _, _, _, _) => Grant(s, f, now)
      case Observation(_, _, _, _, _) => Observe(s, f, now)
      case StepResult(_, _) => Finish(s, f)
      case ExecuteStep(_, _) => None
  }

  function Received(s: View, f: Frame, now: Time): (View, bool) {
    var next := if ValidFrame(f) then Advance(s, f, now) else None;
    if next.None? then (s.(closed := true), false) else (next.value.(lastTime := Some(now)), true)
  }

  predicate MayDispatch(s: View, id: string, now: Time) {
    && !s.closed && s.phase.Calling? && id == s.phase.permit.physicalCallId && s.phase.permit.dispatchMs != 0 && s.lastTime.Some?
    && s.lastTime.value <= now < s.lastTime.value + s.phase.permit.dispatchMs * MS && now < s.deadline
  }

  function Dispatched(s: View, id: string, now: Time): (View, bool) {
    if MayDispatch(s, id, now) then
      (s.(phase := s.phase.(permit := s.phase.permit.(dispatchMs := 0)), lastTime := Some(now)), true)
    else (s.(closed := true), false)
  }

  class Conversation {
    var started: bool
    var closed: bool
    var blocked: bool
    var phase: Phase
    var head: Option<Head>
    var deadline: Time
    var lastTime: Option<Time>
    var callIndex: nat
    var seenCalls: set<string>
    var totalSequence: int
    var toolId: string

    constructor ()
      ensures State() == FRESH
    {
      started, closed, blocked, phase, head, deadline := false, false, false, Blank, None, 0;
      lastTime, callIndex, seenCalls, totalSequence, toolId := None, 0, {}, 0, "";
    }

    function State(): View
      reads this
    {
      View(started, closed, blocked, phase, head, deadline, lastTime, callIndex, seenCalls, totalSequence, toolId)
    }

    method Accept(frame: Frame, now: Time) returns (ok: bool)
      modifies this
      ensures (State(), ok) == Received(old(State()), frame, now)
    {
      if !ValidFrame(frame) {
        closed := true;
        return false;
      }
      ok := Take(frame, now);
      if !ok {
        closed := true;
        return;
      }
      lastTime := Some(now);
    }

    method Take(frame: Frame, now: Time) returns (ok: bool)
      modifies this
      ensures match Advance(old(State()), frame, now)
              case None => !ok && State() == old(State())
              case Some(next) => ok && State() == next
    {
      if closed || (lastTime != None && now < lastTime.value) {
        return false;
      }
      if !started {
        if !frame.ExecuteStep? {
          return false;
        }
        started, phase := true, Idle;
        head := Some(frame.head);
        deadline := now + frame.remainingMs * MS;
        seenCalls := {};
        return true;
      }
      if head != Some(frame.head) || now >= deadline {
        return false;
      }
      match frame {
        case CallIntent(_, _, _, _, _) => ok := TakeIntent(frame);
        case CallPermit(_, _, _, _, _, _, _, _, _, _, _, _) => ok := TakePermit(frame, now);
        case Observation(_, _, _, _, _) => ok := TakeObservation(frame, now);
        case StepResult(_, success) =>
          if phase != Idle || (blocked && success) || (success && callIndex != |Subcalls(head.value.stepKind)|) {
            return false;
          }
          closed := true;
          return true;
        case ExecuteStep(_, _) => return false;
      }
    }

    method TakeIntent(frame: Frame) returns (ok: bool)
      requires frame.CallIntent? && head.Some?
      modifies this
      ensures match Intend(old(State()), frame)
              case None => !ok && State() == old(State())
              case Some(next) => ok && State() == next
    {
      var calls := Subcalls(head.value.stepKind);
      if phase != Idle || blocked || callIndex >= |calls| || frame.subcall != calls[callIndex] || frame.sequence != totalSequence + 1 {
        return false;
      }
      if callIndex > 0 && frame.toolId != toolId {
        return false;
      }
      toolId := frame.toolId;
      phase := Intended(frame.sequence, frame.subcall, frame.parameterHash, frame.toolId);
      totalSequence := frame.sequence;
      return true;
    }

    method TakePermit(frame: Frame, now: Time) returns (ok: bool)
      requires frame.CallPermit?
      modifies this
      ensures match Grant(old(State()), frame, now)
              case None => !ok && State() == old(State())
              case Some(next) => ok && State() == next
    {
      if !phase.Intended? || frame.sequence != phase.sequence || frame.subcall != phase.subcall
         || frame.parameterHash != phase.parameterHash || frame.toolId != phase.toolId
      {
        return false;
      }
      if !frame.granted {
        blocked, phase := true, Idle;
        return true;
      }
      if frame.physicalCallId in seenCalls || now + frame.callMs * MS > deadline {
        return false;
      }
      seenCalls := seenCalls + {frame.physicalCallId};
      var permit := Permit(frame.sequence, frame.subcall, frame.physicalCallId, frame.dispatchMs, frame.inputLimit, frame.outputLimit);
      phase := Calling(permit, now + frame.callMs * MS);
      return true;
    }

    method TakeObservation(frame: Frame, now: Time) returns (ok: bool)
      requires frame.Observation?
      modifies this
      ensures match Observe(old(State()), frame, now)
              case None => !ok && State() == old(State())
              case Some(next) => ok && State() == next
    {
      if !phase.Calling? || phase.permit.dispatchMs != 0 || frame.sequence != phase.permit.sequence
         || frame.physicalCallId != phase.permit.physicalCallId || now >= phase.callDeadline
      {
        return false;
      }
      if frame.usage.Some? {
        if (!phase.permit.subcall.Chat? && !phase.permit.subcall.QueryEmbedding?)
           || frame.usage.value.input > phase.permit.inputLimit || frame.usage.value.output > phase.permit.outputLimit
        {
          return false;
        }
      }
      phase := Idle;
      callIndex := callIndex + 1;
      blocked := !frame.outcome.Accepted?;
      return true;
    }

    method CanDispatch(physicalCallId: string, now: Time) returns (ok: bool)
      modifies this
      ensures (State(), ok) == Dispatched(old(State()), physicalCallId, now)
    {
      if closed || !phase.Calling? || physicalCallId != phase.permit.physicalCallId || lastTime == None || now < lastTime.value
         || now >= lastTime.value + phase.permit.dispatchMs * MS || now >= deadline || phase.permit.dispatchMs == 0
      {
        closed := true;
        return false;
      }
      phase := phase.(permit := phase.permit.(dispatchMs := 0));
      lastTime := Some(now);
      return true;
    }

    method Stop()
      modifies this
      ensures State() == old(State()).(closed := true)
    {
      closed := true;
    }
  }

  // ---------- every sequence of calls ----------

  datatype Input = Frame(frame: Frame, now: Time) | Send(id: string, at: Time) | Cancel

  /** What actually happened: accepted frames, and dispatches with the permission they consumed. */
  datatype Deed = Took(frame: Frame, at: Time) | Sent(permit: Permit, at: Time)

  datatype Talk = Talk(state: View, log: seq<Deed>)

  function Respond(t: Talk, input: Input): Talk {
    match input
    case Frame(frame, now) =>
      var (next, ok) := Received(t.state, frame, now);
      Talk(next, if ok then t.log + [Took(frame, now)] else t.log)
    case Send(id, at) =>
      var (next, ok) := Dispatched(t.state, id, at);
      Talk(next, if ok then t.log + [Sent(t.state.phase.permit, at)] else t.log)
    case Cancel => Talk(t.state.(closed := true), t.log)
  }

  function Play(inputs: seq<Input>): Talk {
    if inputs == [] then Talk(FRESH, []) else Respond(Play(inputs[..|inputs| - 1]), inputs[|inputs| - 1])
  }

  function SentCalls(log: seq<Deed>): seq<Permit> {
    if log == [] then []
    else if log[|log| - 1].Sent? then SentCalls(log[..|log| - 1]) + [log[|log| - 1].permit]
    else SentCalls(log[..|log| - 1])
  }

  /** The observations, in order, as the call each one reports on and whether the business accepted it. */
  function Answers(log: seq<Deed>): seq<(string, bool)> {
    if log == [] then []
    else
      var last, rest := log[|log| - 1], Answers(log[..|log| - 1]);
      if last.Took? && last.frame.Observation? then rest + [(last.frame.physicalCallId, last.frame.outcome.Accepted?)] else rest
  }

  /** A dispatch directly follows the frame that granted it, inside its window. */
  predicate InWindow(log: seq<Deed>, k: nat)
    requires k < |log| && log[k].Sent?
  {
    && k > 0 && log[k - 1].Took? && log[k - 1].frame.CallPermit? && log[k - 1].frame.granted
    && log[k - 1].frame.physicalCallId == log[k].permit.physicalCallId && log[k - 1].frame.subcall == log[k].permit.subcall
    && log[k - 1].at <= log[k].at < log[k - 1].at + log[k - 1].frame.dispatchMs * MS
  }

  predicate Opened(log: seq<Deed>, head: Head, deadline: Time) {
    log != [] && log[0].Took? && log[0].frame.ExecuteStep? && log[0].frame.head == head
    && deadline == log[0].at + log[0].frame.remainingMs * MS
  }

  predicate IsResult(d: Deed) {
    d.Took? && d.frame.StepResult?
  }

  predicate Distinct(calls: seq<Permit>) {
    forall i, j :: 0 <= i < j < |calls| ==> calls[i].physicalCallId != calls[j].physicalCallId
  }

  predicate InOrder(calls: seq<Permit>, kind: S.StepKind) {
    |calls| <= |Subcalls(kind)| && forall i :: 0 <= i < |calls| ==> calls[i].subcall == Subcalls(kind)[i]
  }

  /** Answer i is about dispatch i. */
  predicate Answered(log: seq<Deed>, count: nat) {
    && |Answers(log)| == count <= |SentCalls(log)|
    && forall i :: 0 <= i < count ==> Answers(log)[i].0 == SentCalls(log)[i].physicalCallId
  }

  predicate AllAccepted(log: seq<Deed>) {
    forall i :: 0 <= i < |Answers(log)| ==> Answers(log)[i].1
  }

  /** The permission in hand: unused and granted by the last deed, or consumed by the last dispatch. */
  predicate PhaseFits(s: View, log: seq<Deed>, kind: S.StepKind) {
    var sent := SentCalls(log);
    match s.phase
    case Blank => false
    case Idle => |sent| == s.callIndex
    case Intended(_, subcall, _, _) => !s.blocked && |sent| == s.callIndex < |Subcalls(kind)| && subcall == Subcalls(kind)[s.callIndex]
    case Calling(permit, _) =>
      && !s.blocked && s.callIndex < |Subcalls(kind)| && permit.subcall == Subcalls(kind)[s.callIndex] && permit.physicalCallId in s.seenCalls
      && if permit.dispatchMs != 0 then
           && |sent| == s.callIndex && (forall c :: c in sent ==> c.physicalCallId != permit.physicalCallId)
           && log != [] && log[|log| - 1].Took? && Grants(log[|log| - 1].frame, permit)
         else |sent| == s.callIndex + 1 && sent[s.callIndex].physicalCallId == permit.physicalCallId
  }

  predicate Grants(f: Frame, permit: Permit) {
    && f.CallPermit? && f.granted && f.physicalCallId == permit.physicalCallId && f.subcall == permit.subcall
    && f.dispatchMs == permit.dispatchMs
  }

  ghost predicate Timely(log: seq<Deed>, deadline: Time) {
    && (forall k :: 0 <= k < |log| && log[k].Sent? ==> InWindow(log, k) && log[k].at < deadline)
    && (forall k :: 0 < k < |log| ==> log[k - 1].at <= log[k].at)
  }

  /** A result is the last deed, and a success means every registered call was dispatched and its answer accepted. */
  ghost predicate Concluded(log: seq<Deed>, kind: S.StepKind, closed: bool) {
    forall k :: 0 <= k < |log| && IsResult(log[k]) ==>
      && k == |log| - 1 && closed
      && (log[k].frame.success ==> AllAccepted(log) && |Answers(log)| == |Subcalls(kind)| == |SentCalls(log)|)
  }

  ghost predicate Running(s: View, log: seq<Deed>) {
    && s.head.Some? && Opened(log, s.head.value, s.deadline)
    && InOrder(SentCalls(log), s.head.value.stepKind) && Answered(log, s.callIndex) && (AllAccepted(log) || s.blocked)
    && (s.closed || PhaseFits(s, log, s.head.value.stepKind))
    && Distinct(SentCalls(log)) && (forall c :: c in SentCalls(log) ==> c.physicalCallId in s.seenCalls)
    && Timely(log, s.deadline) && Concluded(log, s.head.value.stepKind, s.closed)
  }

  ghost predicate Inv(t: Talk) {
    if t.state.started then t.log != [] && t.state.lastTime == Some(t.log[|t.log| - 1].at) && Running(t.state, t.log)
    else t.log == [] && t.state == FRESH.(closed := t.state.closed)
  }

  lemma Appended(log: seq<Deed>, d: Deed)
    ensures SentCalls(log + [d]) == if d.Sent? then SentCalls(log) + [d.permit] else SentCalls(log)
    ensures Answers(log + [d]) == if d.Took? && d.frame.Observation? then Answers(log) + [(d.frame.physicalCallId, d.frame.outcome.Accepted?)]
                                  else Answers(log)
  {
    assert (log + [d])[..|log|] == log;
  }

  lemma TimelyAppended(log: seq<Deed>, d: Deed, deadline: Time)
    requires Timely(log, deadline) && (log != [] ==> log[|log| - 1].at <= d.at)
    requires d.Sent? ==> InWindow(log + [d], |log|) && d.at < deadline
    ensures Timely(log + [d], deadline)
  {
    var all := log + [d];
    forall k | 0 <= k < |all| && all[k].Sent? ensures InWindow(all, k) && all[k].at < deadline {
      if k < |log| {
        assert InWindow(log, k);
      }
    }
  }

  lemma ConcludedAppended(log: seq<Deed>, d: Deed, kind: S.StepKind, closed: bool)
    requires Concluded(log, kind, false)
    requires IsResult(d) ==> closed && (d.frame.success ==> AllAccepted(log) && |Answers(log)| == |Subcalls(kind)| == |SentCalls(log)|)
    ensures Concluded(log + [d], kind, closed)
  {
    Appended(log, d);
    var all := log + [d];
    assert forall k :: 0 <= k < |log| ==> all[k] == log[k] && !IsResult(log[k]);
  }

  lemma InvIntent(s: View, log: seq<Deed>, f: Frame, now: Time)
    requires s.started && Running(s, log) && !s.closed && log[|log| - 1].at <= now && f.CallIntent? && Intend(s, f).Some?
    ensures Running(Intend(s, f).value, log + [Took(f, now)])
  {
    var d := Took(f, now);
    Appended(log, d);
    TimelyAppended(log, d, s.deadline);
    ConcludedAppended(log, d, s.head.value.stepKind, false);
  }

  lemma InvGrant(s: View, log: seq<Deed>, f: Frame, now: Time)
    requires s.started && Running(s, log) && !s.closed && log[|log| - 1].at <= now && f.CallPermit? && ValidFrame(f) && Grant(s, f, now).Some?
    ensures Running(Grant(s, f, now).value, log + [Took(f, now)])
  {
    var d := Took(f, now);
    Appended(log, d);
    TimelyAppended(log, d, s.deadline);
    ConcludedAppended(log, d, s.head.value.stepKind, false);
    assert (log + [d])[|log|] == d;
    assert forall c :: c in SentCalls(log) ==> c.physicalCallId in s.seenCalls;
  }

  lemma AnsweredNext(log: seq<Deed>, d: Deed, count: nat)
    requires Answered(log, count) && count < |SentCalls(log)| && d.Took? && d.frame.Observation?
    requires d.frame.physicalCallId == SentCalls(log)[count].physicalCallId
    ensures Answered(log + [d], count + 1)
    ensures AllAccepted(log + [d]) <==> AllAccepted(log) && d.frame.outcome.Accepted?
  {
    Appended(log, d);
    var all := Answers(log + [d]);
    assert all[..count] == Answers(log) && all[count].1 == d.frame.outcome.Accepted?;
    assert forall i :: 0 <= i < count ==> all[i] == Answers(log)[i];
  }

  lemma InvObserve(s: View, log: seq<Deed>, f: Frame, now: Time)
    requires s.started && Running(s, log) && !s.closed && log[|log| - 1].at <= now && f.Observation? && Observe(s, f, now).Some?
    ensures Running(Observe(s, f, now).value, log + [Took(f, now)])
  {
    var d := Took(f, now);
    Appended(log, d);
    AnsweredNext(log, d, s.callIndex);
    TimelyAppended(log, d, s.deadline);
    ConcludedAppended(log, d, s.head.value.stepKind, false);
  }

  lemma InvFinish(s: View, log: seq<Deed>, f: Frame, now: Time)
    requires s.started && Running(s, log) && !s.closed && log[|log| - 1].at <= now && f.StepResult? && Finish(s, f).Some?
    ensures Running(Finish(s, f).value, log + [Took(f, now)])
  {
    var d := Took(f, now);
    Appended(log, d);
    TimelyAppended(log, d, s.deadline);
    ConcludedAppended(log, d, s.head.value.stepKind, true);
  }

  lemma InvOpen(s: View, f: Frame, now: Time)
    requires !s.started && s == FRESH && f.ExecuteStep? && Advance(s, f, now).Some?
    ensures Running(Advance(s, f, now).value, [Took(f, now)])
  {
    Appended([], Took(f, now));
    assert [] + [Took(f, now)] == [Took(f, now)];
  }

  lemma DistinctNext(calls: seq<Permit>, permit: Permit, kind: S.StepKind)
    requires Distinct(calls) && InOrder(calls, kind) && (forall c :: c in calls ==> c.physicalCallId != permit.physicalCallId)
    requires |calls| < |Subcalls(kind)| && permit.subcall == Subcalls(kind)[|calls|]
    ensures Distinct(calls + [permit]) && InOrder(calls + [permit], kind)
  {
  }

  lemma AnsweredStill(log: seq<Deed>, d: Deed, count: nat)
    requires Answered(log, count) && d.Sent?
    ensures Answered(log + [d], count) && (AllAccepted(log + [d]) <==> AllAccepted(log))
  {
    Appended(log, d);
  }

  lemma InvDispatch(s: View, log: seq<Deed>, now: Time)
    requires s.started && Running(s, log) && s.lastTime == Some(log[|log| - 1].at) && s.phase.Calling?
    requires MayDispatch(s, s.phase.permit.physicalCallId, now)
    ensures Running(Dispatched(s, s.phase.permit.physicalCallId, now).0, log + [Sent(s.phase.permit, now)])
  {
    var d := Sent(s.phase.permit, now);
    Appended(log, d);
    DistinctNext(SentCalls(log), s.phase.permit, s.head.value.stepKind);
    AnsweredStill(log, d, s.callIndex);
    assert InWindow(log + [d], |log|);
    TimelyAppended(log, d, s.deadline);
    ConcludedAppended(log, d, s.head.value.stepKind, false);
  }

  lemma InvClosed(s: View, log: seq<Deed>)
    requires s.started && Running(s, log)
    ensures Running(s.(closed := true), log)
  {
  }

  lemma LastTimeKept(s: View, log: seq<Deed>, at: Option<Time>)
    requires Running(s, log)
    ensures Running(s.(lastTime := at), log)
  {
  }

  lemma InvAdvance(s: View, log: seq<Deed>, f: Frame, now: Time)
    requires s.started && Running(s, log) && s.lastTime == Some(log[|log| - 1].at) && ValidFrame(f) && Advance(s, f, now).Some?
    ensures Running(Advance(s, f, now).value, log + [Took(f, now)])
  {
    match f {
      case CallIntent(_, _, _, _, _) => InvIntent(s, log, f, now);
      case CallPermit(_, _, _, _, _, _, _, _, _, _, _, _) => InvGrant(s, log, f, now);
      case Observation(_, _, _, _, _) => InvObserve(s, log, f, now);
      case StepResult(_, _) => InvFinish(s, log, f, now);
      case ExecuteStep(_, _) =>
    }
  }

  lemma InvReceived(t: Talk, f: Frame, now: Time)
    requires Inv(t)
    ensures Inv(Respond(t, Frame(f, now)))
  {
    var s, log := t.state, t.log;
    var next := if ValidFrame(f) then Advance(s, f, now) else None;
    if next.None? {
      if s.started {
        InvClosed(s, log);
      }
    } else {
      if s.started {
        InvAdvance(s, log, f, now);
      } else {
        InvOpen(s, f, now);
      }
      LastTimeKept(next.value, log + [Took(f, now)], Some(now));
    }
  }

  lemma InvSend(t: Talk, id: string, at: Time)
    requires Inv(t)
    ensures Inv(Respond(t, Send(id, at)))
  {
    if MayDispatch(t.state, id, at) {
      InvDispatch(t.state, t.log, at);
    } else if t.state.started {
      InvClosed(t.state, t.log);
    }
  }

  lemma InvRespond(t: Talk, input: Input)
    requires Inv(t)
    ensures Inv(Respond(t, input))
  {
    match input {
      case Frame(f, now) => InvReceived(t, f, now);
      case Send(id, at) => InvSend(t, id, at);
      case Cancel =>
        if t.state.started {
          InvClosed(t.state, t.log);
        }
    }
  }

  lemma {:induction false} AlwaysInv(inputs: seq<Input>)
    ensures Inv(Play(inputs))
  {
    if inputs != [] {
      AlwaysInv(inputs[..|inputs| - 1]);
      InvRespond(Play(inputs[..|inputs| - 1]), inputs[|inputs| - 1]);
    }
  }

  // ---------- what holds in every sequence of calls ----------

  /** No physical call is dispatched twice, and what was dispatched is a prefix of the registered calls of the step. */
  lemma DispatchedOnceInOrder(inputs: seq<Input>)
    ensures Distinct(SentCalls(Play(inputs).log))
    ensures Play(inputs).state.head.Some? ==> InOrder(SentCalls(Play(inputs).log), Play(inputs).state.head.value.stepKind)
    ensures Play(inputs).state.head.None? ==> SentCalls(Play(inputs).log) == []
  {
    AlwaysInv(inputs);
  }

  /**
    A dispatch follows the very frame that granted it, strictly within that frame's window and
    strictly before the step's deadline, which the opening frame fixed.
  */
  lemma DispatchedInTime(inputs: seq<Input>, k: nat)
    requires k < |Play(inputs).log| && Play(inputs).log[k].Sent?
    ensures var log := Play(inputs).log;
            && InWindow(log, k) && log[0].Took? && log[0].frame.ExecuteStep?
            && log[k].at < log[0].at + log[0].frame.remainingMs * MS
  {
    AlwaysInv(inputs);
  }

  /** A reported success means every registered call was dispatched, in order, and each was answered and accepted. */
  lemma SuccessIsComplete(inputs: seq<Input>, k: nat)
    requires k < |Play(inputs).log| && IsResult(Play(inputs).log[k]) && Play(inputs).log[k].frame.success
    ensures var t := Play(inputs);
            && t.state.head.Some? && k == |t.log| - 1 && t.state.closed
            && (var calls, sent, answers := Subcalls(t.state.head.value.stepKind), SentCalls(t.log), Answers(t.log);
                && |sent| == |answers| == |calls|
                && forall i :: 0 <= i < |calls| ==> sent[i].subcall == calls[i] && answers[i] == (sent[i].physicalCallId, true))
  {
    AlwaysInv(inputs);
  }

  /** The last input was refused: the call returned without taking a frame or dispatching anything. */
  ghost predicate Refused(inputs: seq<Input>) {
    inputs != [] && Play(inputs).log == Play(inputs[..|inputs| - 1]).log
  }

  /**
    Nothing is accepted or dispatched, ever, after a conversation is closed or an input is refused,
    whether that is a rejected frame, a refused dispatch or a stop.
  */
  lemma {:induction false} SilentAfterClosure(inputs: seq<Input>, more: seq<Input>)
    requires Play(inputs).state.closed || Refused(inputs)
    ensures Play(inputs + more).state.closed && Play(inputs + more).log == Play(inputs).log
  {
    if more == [] {
      assert inputs + more == inputs;
    } else {
      var n := |more| - 1;
      SilentAfterClosure(inputs, more[..n]);
      assert (inputs + more)[..|inputs + more| - 1] == inputs + more[..n];
    }
  }
}
