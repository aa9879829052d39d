/**
  The commit chain: how the server extends it (internal/run/checkpoint.go) and how a worker
  checks it independently before executing (internal/runinput/input.go).
*/
module CheckpointChain {
  import opened Wrappers
  import opened Identity
  import opened RunModel
  import RunMachine
  import RunPolicy

  datatype Accepted = Accepted(step: StepIdentity, commitHash: string, result: string, resultRef: string)

  datatype Checkpoint = Checkpoint(cursorVersion: int, nextStep: StepIdentity, steps: seq<Accepted>)

  /** The frame binding a checkpoint must match; the expected step is the one to be executed. */
  datatype Binding = Binding(runId: string, step: StepIdentity)

  /**
    The digest, the canonicalizer of registered results, and the checks that do not concern the chain:
    whether this deployment reads policy bundles, and whether adapter, tool and snapshot fields are valid.
  */
  datatype Context = Context(h: string -> string, canon: (string, string) -> Option<string>, bundle: bool, resourcesValid: bool)

  const MAX_RESULT := 32768

  ghost predicate Bounded(c: Context) {
    forall raw, kind :: c.canon(raw, kind).Some? ==> |c.canon(raw, kind).value| <= MAX_RESULT
  }

  // ---------- the worker's check ----------

  predicate RegisteredKind(kind: string) {
    ValidStepKind(kind) && kind != RESOLUTION_OPERATION
  }

  predicate ValidStep(s: StepIdentity) {
    && RegisteredKind(s.kind) && ValidUUID(s.id) && 1 <= s.sequence <= 32 && s.cursorVersion == s.sequence - 1
    && ValidHash(s.inputHash) && ValidIdentifier(s.profileId) && ValidHash(s.profileHash)
    && ValidUUID(s.snapshotId) && ValidHash(s.snapshotHash)
  }

  predicate SameResources(s: StepIdentity, n: StepIdentity) {
    s.profileId == n.profileId && s.profileHash == n.profileHash && s.snapshotId == n.snapshotId && s.snapshotHash == n.snapshotHash
  }

  function StepReference(runId: string, sequence: int): string {
    "run-step:" + runId + ":" + FormatInt(sequence)
  }

  function PreviousHash(steps: seq<Accepted>, i: nat): string
    requires i <= |steps|
  {
    if i == 0 then "" else steps[i - 1].commitHash
  }

  predicate Head(c: Context, p: Checkpoint, b: Binding) {
    && c.resourcesValid && 0 <= p.cursorVersion <= 31 && |p.steps| == p.cursorVersion && ValidStep(p.nextStep)
    && (p.nextStep.kind == "read_policy_bundle" ==> c.bundle)
    && p.nextStep.sequence == p.cursorVersion + 1 && p.nextStep == b.step
  }

  /** One accepted step, checked against the next step's resources and the previous commit hash. */
  predicate LinkAfter(c: Context, n: StepIdentity, b: Binding, s: Accepted, i: nat, previousHash: string) {
    && (s.step.kind == "read_policy_bundle" ==> c.bundle)
    && ValidStep(s.step) && s.step.sequence == i + 1 && SameResources(s.step, n)
    && s.step.inputHash == NextInputHash(c.h, n.profileHash, n.snapshotHash, s.step.cursorVersion, previousHash)
    && ValidHash(s.commitHash) && s.resultRef == StepReference(b.runId, s.step.sequence)
    && c.canon(s.result, s.step.kind).Some?
    && s.commitHash == CommitHash(c.h, s.step, c.canon(s.result, s.step.kind).value)
  }

  /** Step i continues the chain begun by the steps before it. */
  predicate Link(c: Context, p: Checkpoint, b: Binding, i: nat)
    requires i < |p.steps|
  {
    LinkAfter(c, p.nextStep, b, p.steps[i], i, PreviousHash(p.steps, i))
  }

  predicate FreshStep(p: Checkpoint, i: nat)
    requires i < |p.steps|
  {
    p.steps[i].step.id != p.nextStep.id && forall j :: 0 <= j < i ==> p.steps[j].step.id != p.steps[i].step.id
  }

  predicate Tail(c: Context, p: Checkpoint) {
    p.nextStep.inputHash
      == NextInputHash(c.h, p.nextStep.profileHash, p.nextStep.snapshotHash, p.cursorVersion, PreviousHash(p.steps, |p.steps|))
  }

  predicate AcceptedBy(c: Context, p: Checkpoint, b: Binding) {
    Head(c, p, b) && (forall i :: 0 <= i < |p.steps| ==> Link(c, p, b, i) && FreshStep(p, i)) && Tail(c, p)
  }

  method ValidateProjection(c: Context, p: Checkpoint, b: Binding) returns (ok: bool)
    ensures ok == AcceptedBy(c, p, b)
  {
    if !Head(c, p, b) {
      return false;
    }
    var n, previousHash, seen := p.nextStep, "", {p.nextStep.id};
    for index := 0 to |p.steps|
      invariant previousHash == PreviousHash(p.steps, index)
      invariant seen == {n.id} + set j | 0 <= j < index :: p.steps[j].step.id
      invariant forall i :: 0 <= i < index ==> Link(c, p, b, i) && FreshStep(p, i)
    {
      var step := p.steps[index];
      if step.step.id in seen {
        assert !FreshStep(p, index);
        return false;
      }
      if !LinkAfter(c, n, b, step, index, previousHash) {
        assert !Link(c, p, b, index);
        return false;
      }
      previousHash, seen := step.commitHash, seen + {step.step.id};
    }
    return n.inputHash == NextInputHash(c.h, n.profileHash, n.snapshotHash, p.cursorVersion, previousHash);
  }

  // ---------- agreement of two checked chains ----------

  function CanonicalResult(c: Context, s: Accepted): string {
    var canonical := c.canon(s.result, s.step.kind);
    if canonical.Some? then canonical.value else ""
  }

  function InputPreimage(p: Checkpoint, i: nat): string
    requires i <= |p.steps|
  {
    Encode(StepInputFields(p.nextStep.profileHash, p.nextStep.snapshotHash, i, PreviousHash(p.steps, i)))
  }

  function CommitPreimage(c: Context, p: Checkpoint, i: nat): string
    requires i < |p.steps|
  {
    Encode(CommitFields(p.steps[i].step, CanonicalResult(c, p.steps[i])))
  }

  /** Everything the worker hashes while it checks this checkpoint. */
  ghost function Hashed(c: Context, p: Checkpoint): set<string> {
    (set i | 0 <= i <= |p.steps| :: InputPreimage(p, i)) + (set i | 0 <= i < |p.steps| :: CommitPreimage(c, p, i))
  }

  /** The two checkpoints tell the same history up to step i. */
  predicate AgreeUpTo(c: Context, p: Checkpoint, q: Checkpoint, i: nat)
    requires i <= |p.steps| && i <= |q.steps|
  {
    forall j :: 0 <= j < i ==> AgreeAt(c, p, q, j)
  }

  lemma InputMeasurable(c: Context, p: Checkpoint, b: Binding, i: nat)
    requires AcceptedBy(c, p, b) && i <= |p.steps|
    ensures Measurable(StepInputFields(p.nextStep.profileHash, p.nextStep.snapshotHash, i, PreviousHash(p.steps, i)))
  {
    ShortDecimal(i);
    if i > 0 { assert Link(c, p, b, i - 1); }
  }

  lemma CommitMeasurable(c: Context, p: Checkpoint, b: Binding, i: nat)
    requires AcceptedBy(c, p, b) && Bounded(c) && i < |p.steps|
    ensures Measurable(CommitFields(p.steps[i].step, CanonicalResult(c, p.steps[i])))
  {
    assert Link(c, p, b, i);
    ShortDecimal(i);
    ShortDecimal(i + 1);
    ShortKind(p.steps[i].step.kind);
  }

  lemma ShortDecimal(n: nat)
    requires n <= 100
    ensures |FormatInt(n)| <= 3
  {
    if n >= 10 {
      var m := n / 10;
      assert Decimal(n) == Decimal(m) + [Digit(n % 10)];
      if m >= 10 {
        assert Decimal(m) == Decimal(m / 10) + [Digit(m % 10)];
        assert m / 10 < 10;
      }
    }
  }

  lemma ShortKind(kind: string)
    requires RegisteredKind(kind)
    ensures |kind| <= 32
  {
  }

  /** Equal digests of what was hashed come from equal inputs. */
  lemma Unhash(c: Context, p: Checkpoint, q: Checkpoint, x: string, y: string)
    requires CollisionFree(c.h, Hashed(c, p) + Hashed(c, q)) && x in Hashed(c, p) && y in Hashed(c, q) && c.h(x) == c.h(y)
    ensures x == y
  {
  }

  lemma CommitsAgree(c: Context, p: Checkpoint, q: Checkpoint, b: Binding, i: nat)
    requires AcceptedBy(c, p, b) && AcceptedBy(c, q, b) && Bounded(c) && CollisionFree(c.h, Hashed(c, p) + Hashed(c, q))
    requires i < |p.steps| && i < |q.steps| && p.steps[i].commitHash == q.steps[i].commitHash
    ensures p.steps[i].step == q.steps[i].step && CanonicalResult(c, p.steps[i]) == CanonicalResult(c, q.steps[i])
  {
    assert Link(c, p, b, i) && Link(c, q, b, i);
    Unhash(c, p, q, CommitPreimage(c, p, i), CommitPreimage(c, q, i));
    CommitMeasurable(c, p, b, i);
    CommitMeasurable(c, q, b, i);
    CommitFieldsInjective(p.steps[i].step, CanonicalResult(c, p.steps[i]), q.steps[i].step, CanonicalResult(c, q.steps[i]));
  }

  lemma PreviousAgree(c: Context, p: Checkpoint, q: Checkpoint, b: Binding, i: nat)
    requires AcceptedBy(c, p, b) && AcceptedBy(c, q, b) && Bounded(c) && CollisionFree(c.h, Hashed(c, p) + Hashed(c, q))
    requires i <= |p.steps| && i <= |q.steps| && c.h(InputPreimage(p, i)) == c.h(InputPreimage(q, i))
    ensures PreviousHash(p.steps, i) == PreviousHash(q.steps, i)
  {
    Unhash(c, p, q, InputPreimage(p, i), InputPreimage(q, i));
    InputMeasurable(c, p, b, i);
    InputMeasurable(c, q, b, i);
    StepInputFieldsInjective(p.nextStep.profileHash, p.nextStep.snapshotHash, i, PreviousHash(p.steps, i),
                             q.nextStep.profileHash, q.nextStep.snapshotHash, i, PreviousHash(q.steps, i));
  }

  lemma LinkInput(c: Context, p: Checkpoint, b: Binding, i: nat)
    requires i < |p.steps| && Link(c, p, b, i)
    ensures p.steps[i].step.inputHash == c.h(InputPreimage(p, i))
    ensures p.steps[i].resultRef == StepReference(b.runId, i + 1)
  {
  }

  predicate AgreeAt(c: Context, p: Checkpoint, q: Checkpoint, j: nat)
    requires j < |p.steps| && j < |q.steps|
  {
    && p.steps[j].step == q.steps[j].step && p.steps[j].commitHash == q.steps[j].commitHash
    && p.steps[j].resultRef == q.steps[j].resultRef
    && CanonicalResult(c, p.steps[j]) == CanonicalResult(c, q.steps[j])
  }

  lemma StepBack(c: Context, p: Checkpoint, q: Checkpoint, b: Binding, i: nat)
    requires AcceptedBy(c, p, b) && AcceptedBy(c, q, b) && Bounded(c) && CollisionFree(c.h, Hashed(c, p) + Hashed(c, q))
    requires i < |p.steps| && i < |q.steps| && c.h(InputPreimage(p, i + 1)) == c.h(InputPreimage(q, i + 1))
    ensures AgreeAt(c, p, q, i) && c.h(InputPreimage(p, i)) == c.h(InputPreimage(q, i))
  {
    PreviousAgree(c, p, q, b, i + 1);
    CommitsAgree(c, p, q, b, i);
    LinkInput(c, p, b, i);
    LinkInput(c, q, b, i);
  }

  ghost predicate SameInput(c: Context, p: Checkpoint, q: Checkpoint, i: nat)
    requires i <= |p.steps| && i <= |q.steps|
  {
    c.h(InputPreimage(p, i)) == c.h(InputPreimage(q, i))
  }

  ghost predicate StepsBack(c: Context, p: Checkpoint, q: Checkpoint, j: nat)
    requires j < |p.steps| && j < |q.steps|
  {
    SameInput(c, p, q, j + 1) ==> AgreeAt(c, p, q, j) && SameInput(c, p, q, j)
  }

  ghost predicate AllStepBack(c: Context, p: Checkpoint, q: Checkpoint, n: nat)
    requires n <= |p.steps| && n <= |q.steps|
  {
    forall j: nat :: j < n ==> StepsBack(c, p, q, j)
  }

  lemma {:induction false} Descend(c: Context, p: Checkpoint, q: Checkpoint, n: nat, i: nat)
    requires i <= n <= |p.steps| && n <= |q.steps| && SameInput(c, p, q, i) && AllStepBack(c, p, q, n)
    ensures AgreeUpTo(c, p, q, i)
  {
    if i > 0 {
      assert StepsBack(c, p, q, i - 1);
      Descend(c, p, q, n, i - 1);
    }
  }

  lemma AgreeDownFrom(c: Context, p: Checkpoint, q: Checkpoint, b: Binding, i: nat)
    requires AcceptedBy(c, p, b) && AcceptedBy(c, q, b) && Bounded(c) && CollisionFree(c.h, Hashed(c, p) + Hashed(c, q))
    requires i <= |p.steps| && i <= |q.steps| && SameInput(c, p, q, i)
    ensures AgreeUpTo(c, p, q, i)
  {
    forall j: nat | j < i ensures StepsBack(c, p, q, j) {
      if SameInput(c, p, q, j + 1) {
        StepBack(c, p, q, b, j);
      }
    }
    Descend(c, p, q, i, i);
  }

  /**
    Two checkpoints accepted for the same binding tell the same history: the same number of steps,
    and step by step the same identity, commit hash, reference and canonical result. The only
    alternative is a digest collision among the inputs hashed while checking these two.
  */
  lemma ChainsAgree(c: Context, p: Checkpoint, q: Checkpoint, b: Binding)
    requires AcceptedBy(c, p, b) && AcceptedBy(c, q, b) && Bounded(c)
    requires CollisionFree(c.h, Hashed(c, p) + Hashed(c, q))
    ensures |p.steps| == |q.steps| && p.nextStep == q.nextStep && AgreeUpTo(c, p, q, |p.steps|)
  {
    AgreeDownFrom(c, p, q, b, |p.steps|);
  }

  // ---------- the server's chain is always accepted ----------

  /** The Run and its authority together with the accepted steps stored for it. */
  datatype Server = Server(run: RunView, auth: AuthorityView, steps: seq<Accepted>)

  /** A commit as the store applies it, after the graph has computed its decision. */
  datatype Contribution = Contribution(req: CommitRequest, raw: string, decision: CommitDecision, nextStepId: string, now: Time)

  function CheckpointOf(s: Server): Checkpoint {
    Checkpoint(s.run.cursorVersion, RunPolicy.PendingStep(s.run, s.auth), s.steps)
  }

  function BindingOf(s: Server): Binding {
    Binding(s.run.identity.id, RunPolicy.PendingStep(s.run, s.auth))
  }

  predicate FreshId(s: Server, id: string) {
    ValidUUID(id) && id != s.auth.nextStepId && forall i :: 0 <= i < |s.steps| ==> s.steps[i].step.id != id
  }

  /**
    The side that commits: its own canonicalizer, chosen by the Run's profile where the worker chooses
    by the result, and which results the graph accepts.
  */
  datatype Producer = Producer(canon: (string, string) -> Option<string>, accepts: (string, string) -> bool)

  /** On committed results the worker's canonicalizer finds what the producer's found. */
  ghost predicate Agrees(q: Producer, c: Context) {
    forall raw, kind :: q.accepts(raw, kind) && q.canon(raw, kind).Some? ==> c.canon(raw, kind) == q.canon(raw, kind)
  }

  /** What the graph and the store guarantee of a commit that does not close the attempt. */
  predicate Genuine(q: Producer, c: Context, s: Server, x: Contribution) {
    && RunPolicy.CommitRefusal(s.run, s.auth, x.req, x.decision, x.nextStepId, x.now).None?
    && !x.decision.closeAttempt
    && q.accepts(x.raw, x.req.step.kind) && q.canon(x.raw, x.req.step.kind) == Some(x.decision.canonical)
    && x.req.commitHash == CommitHash(c.h, x.req.step, x.decision.canonical)
    && RegisteredKind(x.decision.nextKind) && (x.decision.nextKind == "read_policy_bundle" ==> c.bundle)
    && FreshId(s, x.nextStepId)
    && s.run.cursorVersion < 31
  }

  function Extended(c: Context, s: Server, x: Contribution): Server {
    var record := Accepted(x.req.step, x.req.commitHash, x.raw, StepReference(s.run.identity.id, x.req.step.sequence));
    Server(RunPolicy.CommittedRun(s.run, x.decision, x.now),
           RunPolicy.CommittedAuthority(c.h, s.run, s.auth, x.req, x.decision, x.nextStepId), s.steps + [record])
  }

  /** Between commits anything else may happen to the Run before its approval: claims, heartbeats, stops, recoveries, sweeps. */
  datatype Deed = Committed(x: Contribution) | Happened(event: RunMachine.Event, now: Time)

  predicate Permitted(q: Producer, c: Context, s: Server, d: Deed) {
    match d
    case Committed(x) => Genuine(q, c, s, x)
    case Happened(e, _) => !e.Commit? && !e.Decide? && !e.Resolve?
  }

  function Done(c: Context, s: Server, d: Deed): Server {
    match d
    case Committed(x) => Extended(c, s, x)
    case Happened(e, now) =>
      var t := RunMachine.Next(c.h, RunMachine.System(s.run, s.auth, 0, []), e, now);
      Server(t.run, t.auth, s.steps)
  }

  predicate AllPermitted(q: Producer, c: Context, s: Server, ds: seq<Deed>)
    decreases |ds|
  {
    ds == [] || (Permitted(q, c, s, ds[0]) && AllPermitted(q, c, Done(c, s, ds[0]), ds[1..]))
  }

  function AllDone(c: Context, s: Server, ds: seq<Deed>): Server
    decreases |ds|
  {
    if ds == [] then s else AllDone(c, Done(c, s, ds[0]), ds[1..])
  }

  ghost predicate HexDigest(c: Context) {
    forall x :: ValidHash(c.h(x))
  }

  lemma OldLinksKept(q: Producer, c: Context, s: Server, x: Contribution, i: nat)
    requires AcceptedBy(c, CheckpointOf(s), BindingOf(s)) && Genuine(q, c, s, x) && i < |s.steps|
    ensures Link(c, CheckpointOf(Extended(c, s, x)), BindingOf(Extended(c, s, x)), i)
    ensures FreshStep(CheckpointOf(Extended(c, s, x)), i)
  {
    var p, after := CheckpointOf(s), CheckpointOf(Extended(c, s, x));
    assert Link(c, p, BindingOf(s), i) && FreshStep(p, i);
    assert forall j :: 0 <= j <= i ==> after.steps[j] == p.steps[j];
    assert PreviousHash(after.steps, i) == PreviousHash(p.steps, i);
  }

  lemma CommitsPendingStep(q: Producer, c: Context, s: Server, x: Contribution)
    requires Genuine(q, c, s, x)
    ensures x.req.step == RunPolicy.PendingStep(s.run, s.auth)
  {
  }

  lemma NewLinkHolds(q: Producer, c: Context, s: Server, x: Contribution)
    requires AcceptedBy(c, CheckpointOf(s), BindingOf(s)) && Genuine(q, c, s, x) && HexDigest(c) && Agrees(q, c)
    ensures Link(c, CheckpointOf(Extended(c, s, x)), BindingOf(Extended(c, s, x)), |s.steps|)
  {
    var p, after := CheckpointOf(s), CheckpointOf(Extended(c, s, x));
    CommitsPendingStep(q, c, s, x);
    assert PreviousHash(after.steps, |s.steps|) == PreviousHash(p.steps, |s.steps|);
    assert ValidStep(p.nextStep) && SameResources(p.nextStep, after.nextStep) && Tail(c, p);
  }

  lemma NewStepFresh(q: Producer, c: Context, s: Server, x: Contribution)
    requires AcceptedBy(c, CheckpointOf(s), BindingOf(s)) && Genuine(q, c, s, x)
    ensures FreshStep(CheckpointOf(Extended(c, s, x)), |s.steps|)
  {
    var p, after := CheckpointOf(s), CheckpointOf(Extended(c, s, x));
    CommitsPendingStep(q, c, s, x);
    assert after.nextStep.id == x.nextStepId && after.steps[|s.steps|].step.id == s.auth.nextStepId;
    forall j | 0 <= j < |s.steps| ensures after.steps[j].step.id != s.auth.nextStepId {
      assert FreshStep(p, j);
    }
  }

  lemma ExtensionAccepted(q: Producer, c: Context, s: Server, x: Contribution)
    requires HexDigest(c) && Agrees(q, c) && AcceptedBy(c, CheckpointOf(s), BindingOf(s)) && Genuine(q, c, s, x)
    ensures AcceptedBy(c, CheckpointOf(Extended(c, s, x)), BindingOf(Extended(c, s, x)))
  {
    NewLinkHolds(q, c, s, x);
    NewStepFresh(q, c, s, x);
    forall i | 0 <= i < |s.steps|
      ensures Link(c, CheckpointOf(Extended(c, s, x)), BindingOf(Extended(c, s, x)), i)
      ensures FreshStep(CheckpointOf(Extended(c, s, x)), i)
    {
      OldLinksKept(q, c, s, x, i);
    }
    CommitsPendingStep(q, c, s, x);
  }

  lemma OtherEventsKeepChain(c: Context, s: Server, e: RunMachine.Event, now: Time)
    requires !e.Commit? && !e.Decide? && !e.Resolve?
    ensures CheckpointOf(Done(c, s, Happened(e, now))) == CheckpointOf(s)
    ensures BindingOf(Done(c, s, Happened(e, now))) == BindingOf(s)
  {
  }

  lemma {:induction false} AllDoneAccepted(q: Producer, c: Context, s: Server, ds: seq<Deed>)
    requires HexDigest(c) && Agrees(q, c) && AcceptedBy(c, CheckpointOf(s), BindingOf(s)) && AllPermitted(q, c, s, ds)
    ensures AcceptedBy(c, CheckpointOf(AllDone(c, s, ds)), BindingOf(AllDone(c, s, ds)))
    decreases |ds|
  {
    if ds != [] {
      match ds[0] {
        case Committed(x) => ExtensionAccepted(q, c, s, x);
        case Happened(e, now) => OtherEventsKeepChain(c, s, e, now);
      }
      AllDoneAccepted(q, c, Done(c, s, ds[0]), ds[1..]);
    }
  }

  function Opened(c: Context, identity: RunIdentity, stepId: string, now: Time): Server {
    Server(RunPolicy.Submitted(identity, now),
           AuthorityView("", "", 0, None, 0, stepId, "read_ticket",
                         InitialStepInput(c.h, identity.profileHash, identity.snapshotHash)), [])
  }

  /** Every history the server builds by genuine commits, from submission to before approval, passes the worker's check. */
  lemma ProducerAccepted(q: Producer, c: Context, identity: RunIdentity, stepId: string, start: Time, ds: seq<Deed>)
    requires HexDigest(c) && Agrees(q, c) && c.resourcesValid && ValidUUID(stepId)
    requires ValidIdentifier(identity.profileId) && ValidHash(identity.profileHash)
    requires ValidUUID(identity.snapshotId) && ValidHash(identity.snapshotHash)
    requires AllPermitted(q, c, Opened(c, identity, stepId, start), ds)
    ensures var t := AllDone(c, Opened(c, identity, stepId, start), ds);
            AcceptedBy(c, CheckpointOf(t), BindingOf(t))
  {
    AllDoneAccepted(q, c, Opened(c, identity, stepId, start), ds);
  }
}
