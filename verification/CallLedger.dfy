/**
  Three overlapping accounts and the calls that were charged to them. A reservation and a
  settlement each update a call's family, tenant and batch account in one transaction
  (internal/run/budget.go). The entries are the history; the theorem is that the accounts
  are at every moment a function of it.
*/
module CallLedger {
  import opened Wrappers
  import opened Budget

  datatype Scope = Family(id: string) | Tenant(id: string) | Batch(id: string)

  /** Open and Anomalous calls keep their complete hold; a Closed one is replaced by its known usage. */
  datatype Standing = Open | Closed(tokens: int, cost: int) | Anomalous

  datatype Entry =
    | Call(family: string, tenant: string, batch: string, delta: Usage, standing: Standing)
    | Stop(scope: Scope)

  datatype Ledger = Ledger(accounts: map<Scope, Account>, entries: seq<Entry>)

  datatype Column = HeldTokens | HeldCost | KnownTokens | KnownCost | Counter(index: int)

  function Charged(e: Entry): set<Scope> {
    if e.Call? then {Family(e.family), Tenant(e.tenant), Batch(e.batch)} else {}
  }

  // ---------- transactions ----------

  predicate Funded(l: Ledger, e: Entry) {
    Charged(e) <= l.accounts.Keys
  }

  function FirstFailure(l: Ledger, e: Entry, update: Account -> Result<Account, BudgetError>): Option<BudgetError>
    requires e.Call? && Funded(l, e)
  {
    var f, t, b := update(l.accounts[Family(e.family)]), update(l.accounts[Tenant(e.tenant)]), update(l.accounts[Batch(e.batch)]);
    if f.Failure? then Some(f.error) else if t.Failure? then Some(t.error) else if b.Failure? then Some(b.error) else None
  }

  function UpdateAccounts(l: Ledger, e: Entry, update: Account -> Result<Account, BudgetError>): (accounts: map<Scope, Account>)
    requires e.Call? && Funded(l, e) && FirstFailure(l, e, update).None?
  {
    map k | k in l.accounts :: if k in Charged(e) then update(l.accounts[k]).value else l.accounts[k]
  }

  function Reserve(l: Ledger, e: Entry): Result<Ledger, BudgetError>
    requires e.Call? && Funded(l, e)
  {
    var update := (a: Account) => Reserved(a, e.delta);
    var failure := FirstFailure(l, e, update);
    if failure.Some? then Failure(failure.value)
    else Success(Ledger(UpdateAccounts(l, e, update), l.entries + [e.(standing := Open)]))
  }

  predicate Exceeds(e: Entry, tokens: int, cost: int)
    requires e.Call?
  {
    tokens > e.delta.tokens || cost > e.delta.cost
  }

  function NewStanding(e: Entry, tokens: int, cost: int): Standing
    requires e.Call?
  {
    if Exceeds(e, tokens, cost) then Anomalous else Closed(tokens, cost)
  }

  /** The first report on call i; later reports are routed to the recorded facts and never reach the accounts. */
  function Settle(l: Ledger, i: nat, tokens: int, cost: int): Result<Ledger, BudgetError>
    requires i < |l.entries| && l.entries[i].Call? && Funded(l, l.entries[i])
  {
    var e := l.entries[i];
    if !e.standing.Open? then Success(l)
    else
      var update := (a: Account) => Settled(a, e.delta.tokens, e.delta.cost, tokens, cost);
      var failure := FirstFailure(l, e, update);
      if failure.Some? then Failure(failure.value)
      else Success(Ledger(UpdateAccounts(l, e, update), l.entries[i := e.(standing := NewStanding(e, tokens, cost))]))
  }

  /** The call's hold stays for good and its three accounts admit nothing more. */
  function Suspend(l: Ledger, i: nat): Ledger
    requires i < |l.entries| && l.entries[i].Call?
  {
    var e := l.entries[i];
    Ledger(map k | k in l.accounts :: if k in Charged(e) then l.accounts[k].(frozen := true) else l.accounts[k],
           l.entries[i := e.(standing := Anomalous)])
  }

  /** How the store reports: what it finds anomalous, or over the hold, suspends the call and never reaches SettleAccount. */
  function Screened(l: Ledger, i: nat, anomaly: bool, tokens: int, cost: int): Result<Ledger, BudgetError>
    requires i < |l.entries| && l.entries[i].Call? && Funded(l, l.entries[i])
  {
    var e := l.entries[i];
    if !e.standing.Open? then Success(l)
    else if anomaly || Exceeds(e, tokens, cost) then Success(Suspend(l, i))
    else Settle(l, i, tokens, cost)
  }

  /** A batch stop, which freezes one account without touching any hold. */
  function Freeze(l: Ledger, scope: Scope): Ledger
    requires scope in l.accounts
  {
    Ledger(l.accounts[scope := l.accounts[scope].(frozen := true)], l.entries + [Stop(scope)])
  }

  // ---------- what the history says each account must hold ----------

  function Weight(e: Entry, k: Scope, c: Column): int {
    if k !in Charged(e) then 0
    else
      match c
      case HeldTokens => if e.standing.Closed? then 0 else e.delta.tokens
      case HeldCost => if e.standing.Closed? then 0 else e.delta.cost
      case KnownTokens => if e.standing.Closed? then e.standing.tokens else 0
      case KnownCost => if e.standing.Closed? then e.standing.cost else 0
      case Counter(i) => if 0 <= i < FIELDS then Fields(e.delta)[i] else 0
  }

  function Sum(entries: seq<Entry>, k: Scope, c: Column): int {
    if entries == [] then 0 else Sum(entries[..|entries| - 1], k, c) + Weight(entries[|entries| - 1], k, c)
  }

  predicate Freezes(e: Entry, k: Scope) {
    (e.Stop? && e.scope == k) || (e.Call? && e.standing.Anomalous? && k in Charged(e))
  }

  function Value(a: Account, c: Column): int {
    match c
    case HeldTokens => a.heldTokens
    case HeldCost => a.heldCost
    case KnownTokens => a.knownTokens
    case KnownCost => a.knownCost
    case Counter(i) => if 0 <= i < COUNTERS then Fields(a.used)[i] else 0
  }

  predicate Frozen(entries: seq<Entry>, k: Scope) {
    exists i :: 0 <= i < |entries| && Freezes(entries[i], k)
  }

  /** The fields before tokens and cost: counts of things done, never refunded. */
  const COUNTERS := 7

  predicate Tracked(c: Column) {
    c.Counter? ==> 0 <= c.index < COUNTERS
  }

  ghost predicate AccountConserved(a: Account, k: Scope, entries: seq<Entry>) {
    && Valid(a.limits) && Valid(a.used) && Within(a.used, a.limits)
    && (forall c :: Tracked(c) ==> Value(a, c) == Sum(entries, k, c))
    && a.used.tokens == a.knownTokens + a.heldTokens
    && a.used.cost == a.knownCost + a.heldCost
    && (a.frozen <==> Frozen(entries, k))
  }

  predicate WellFormed(e: Entry) {
    e.Call? ==>
      && Valid(e.delta)
      && (e.standing.Closed? ==> 0 <= e.standing.tokens <= e.delta.tokens && 0 <= e.standing.cost <= e.delta.cost)
  }

  ghost predicate Conserved(l: Ledger) {
    && (forall i :: 0 <= i < |l.entries| ==> WellFormed(l.entries[i]) && Funded(l, l.entries[i]))
    && (forall k :: k in l.accounts ==> AccountConserved(l.accounts[k], k, l.entries))
  }

  function Opened(limits: map<Scope, Usage>): Ledger {
    var zero := Usage(0, 0, 0, 0, 0, 0, 0, 0, 0);
    Ledger(map k | k in limits :: Account(limits[k], zero, false, 0, 0, 0, 0), [])
  }

  lemma OpenedConserved(limits: map<Scope, Usage>)
    requires forall k :: k in limits ==> Valid(limits[k])
    ensures Conserved(Opened(limits))
  {
  }

  // ---------- sums ----------

  lemma SumAppend(entries: seq<Entry>, e: Entry, k: Scope, c: Column)
    ensures Sum(entries + [e], k, c) == Sum(entries, k, c) + Weight(e, k, c)
  {
    assert (entries + [e])[..|entries|] == entries;
  }

  lemma {:induction false} SumUpdate(entries: seq<Entry>, i: nat, e: Entry, k: Scope, c: Column)
    requires i < |entries|
    ensures Sum(entries[i := e], k, c) == Sum(entries, k, c) - Weight(entries[i], k, c) + Weight(e, k, c)
  {
    var n := |entries| - 1;
    if i == n {
      assert entries[i := e][..n] == entries[..n];
    } else {
      SumUpdate(entries[..n], i, e, k, c);
      assert entries[i := e][..n] == entries[..n][i := e];
    }
  }

  lemma WeightNonnegative(e: Entry, k: Scope, c: Column)
    requires WellFormed(e)
    ensures Weight(e, k, c) >= 0
  {
    if k in Charged(e) && c.Counter? && 0 <= c.index < FIELDS {
      assert InRange(Fields(e.delta)[c.index]);
    }
    if e.Call? {
      assert InRange(Fields(e.delta)[7]) && InRange(Fields(e.delta)[8]);
    }
  }

  lemma {:induction false} SumCovers(entries: seq<Entry>, k: Scope, c: Column)
    requires forall i :: 0 <= i < |entries| ==> WellFormed(entries[i])
    ensures Sum(entries, k, c) >= 0
    ensures forall i :: 0 <= i < |entries| ==> Sum(entries, k, c) >= Weight(entries[i], k, c)
  {
    if entries != [] {
      var n := |entries| - 1;
      SumCovers(entries[..n], k, c);
      WeightNonnegative(entries[n], k, c);
      forall i | 0 <= i < |entries| ensures Sum(entries, k, c) >= Weight(entries[i], k, c) {
        if i < n {
          assert entries[..n][i] == entries[i];
        }
      }
    }
  }

  // ---------- every transaction conserves ----------

  lemma FreezesAppend(entries: seq<Entry>, e: Entry, k: Scope)
    ensures Frozen(entries + [e], k) <==> Frozen(entries, k) || Freezes(e, k)
  {
    var all := entries + [e];
    assert all[|entries|] == e;
    assert forall i :: 0 <= i < |entries| ==> all[i] == entries[i];
  }

  lemma FreezesUpdate(entries: seq<Entry>, j: nat, e: Entry, k: Scope)
    requires j < |entries| && !Freezes(entries[j], k)
    ensures Frozen(entries[j := e], k) <==> Frozen(entries, k) || Freezes(e, k)
  {
    var all := entries[j := e];
    assert all[j] == e;
    assert forall i :: 0 <= i < |entries| && i != j ==> all[i] == entries[i];
  }

  lemma AccountAppend(a: Account, after: Account, k: Scope, entries: seq<Entry>, e: Entry)
    requires AccountConserved(a, k, entries)
    requires if k in Charged(e) && !Freezes(e, k) then Reserved(a, e.delta) == Success(after) && e.standing.Open? && Valid(e.delta)
             else k !in Charged(e) && after == a.(frozen := a.frozen || Freezes(e, k))
    ensures AccountConserved(after, k, entries + [e])
  {
    FreezesAppend(entries, e, k);
    forall c | Tracked(c) ensures Value(after, c) == Sum(entries + [e], k, c) {
      SumAppend(entries, e, k, c);
      if k in Charged(e) && c.Counter? {
        PlusFields(a.used, e.delta, c.index);
      }
    }
  }

  lemma AccountSettled(a: Account, after: Account, k: Scope, entries: seq<Entry>, j: nat, tokens: int, cost: int)
    requires AccountConserved(a, k, entries)
    requires j < |entries| && entries[j].Call? && entries[j].standing.Open? && k in Charged(entries[j])
    requires forall i :: 0 <= i < |entries| ==> WellFormed(entries[i])
    requires Settled(a, entries[j].delta.tokens, entries[j].delta.cost, tokens, cost) == Success(after)
    ensures AccountConserved(after, k, entries[j := entries[j].(standing := NewStanding(entries[j], tokens, cost))])
  {
    var e := entries[j];
    var e' := e.(standing := NewStanding(e, tokens, cost));
    FreezesUpdate(entries, j, e', k);
    forall c | Tracked(c) ensures Value(after, c) == Sum(entries[j := e'], k, c) {
      SumUpdate(entries, j, e', k, c);
    }
    if !Exceeds(e, tokens, cost) {
      SettledWithin(a, after, e.delta.tokens, e.delta.cost, tokens, cost);
    }
  }

  lemma SettledWithin(a: Account, after: Account, heldTokens: int, heldCost: int, tokens: int, cost: int)
    requires Valid(a.limits) && Valid(a.used) && Within(a.used, a.limits)
    requires a.used.tokens == a.knownTokens + a.heldTokens && a.used.cost == a.knownCost + a.heldCost
    requires tokens <= heldTokens && cost <= heldCost
    requires Settled(a, heldTokens, heldCost, tokens, cost) == Success(after)
    ensures Valid(after.used) && Within(after.used, after.limits) && after.limits == a.limits && Valid(after.limits)
  {
    var f, g, m := Fields(a.used), Fields(after.used), Fields(a.limits);
    assert forall i :: 0 <= i < COUNTERS ==> g[i] == f[i];
    assert g[7] == after.knownTokens + after.heldTokens <= f[7] && g[8] == after.knownCost + after.heldCost <= f[8];
    forall i | 0 <= i < FIELDS ensures InRange(g[i]) && g[i] <= m[i] {
      assert InRange(f[i]) && f[i] <= m[i];
    }
  }

  lemma AccountUntouched(a: Account, k: Scope, entries: seq<Entry>, j: nat, e: Entry)
    requires AccountConserved(a, k, entries)
    requires j < |entries| && k !in Charged(entries[j]) && entries[j].Call? && Charged(e) == Charged(entries[j]) && e.Call?
    ensures AccountConserved(a, k, entries[j := e])
  {
    FreezesUpdate(entries, j, e, k);
    forall c | Tracked(c) ensures Value(a, c) == Sum(entries[j := e], k, c) {
      SumUpdate(entries, j, e, k, c);
    }
  }

  lemma ReserveConserves(l: Ledger, e: Entry)
    requires Conserved(l) && e.Call? && Funded(l, e) && Reserve(l, e).Success?
    ensures Conserved(Reserve(l, e).value)
  {
    var l' := Reserve(l, e).value;
    var held := e.(standing := Open);
    forall k | k in l'.accounts ensures AccountConserved(l'.accounts[k], k, l'.entries) {
      AccountAppend(l.accounts[k], l'.accounts[k], k, l.entries, held);
    }
    assert Charged(held) == Charged(e);
    var f := Family(e.family);
    assert f in Charged(e) && Reserved(l.accounts[f], e.delta).Success?;
  }

  lemma SettleConserves(l: Ledger, j: nat, tokens: int, cost: int)
    requires Conserved(l) && j < |l.entries| && l.entries[j].Call?
    requires Settle(l, j, tokens, cost).Success?
    ensures Conserved(Settle(l, j, tokens, cost).value)
  {
    var e := l.entries[j];
    if e.standing.Open? {
      var l' := Settle(l, j, tokens, cost).value;
      var e' := e.(standing := NewStanding(e, tokens, cost));
      assert Charged(e') == Charged(e);
      var f := Family(e.family);
      assert f in Charged(e) && Settled(l.accounts[f], e.delta.tokens, e.delta.cost, tokens, cost).Success?;
      forall k | k in l'.accounts ensures AccountConserved(l'.accounts[k], k, l'.entries) {
        if k in Charged(e) {
          AccountSettled(l.accounts[k], l'.accounts[k], k, l.entries, j, tokens, cost);
        } else {
          AccountUntouched(l.accounts[k], k, l.entries, j, e');
        }
      }
    }
  }

  lemma SuspendConserves(l: Ledger, j: nat)
    requires Conserved(l) && j < |l.entries| && l.entries[j].Call? && l.entries[j].standing.Open?
    ensures Conserved(Suspend(l, j))
  {
    var e, l' := l.entries[j], Suspend(l, j);
    var e' := e.(standing := Anomalous);
    assert Charged(e') == Charged(e);
    forall k | k in l'.accounts ensures AccountConserved(l'.accounts[k], k, l'.entries) {
      if k in Charged(e) {
        FreezesUpdate(l.entries, j, e', k);
        forall c | Tracked(c) ensures Value(l'.accounts[k], c) == Sum(l'.entries, k, c) {
          SumUpdate(l.entries, j, e', k, c);
        }
      } else {
        AccountUntouched(l.accounts[k], k, l.entries, j, e');
      }
    }
  }

  lemma FreezeConserves(l: Ledger, scope: Scope)
    requires Conserved(l) && scope in l.accounts
    ensures Conserved(Freeze(l, scope))
  {
    var l' := Freeze(l, scope);
    forall k | k in l'.accounts ensures AccountConserved(l'.accounts[k], k, l'.entries) {
      AccountAppend(l.accounts[k], l'.accounts[k], k, l.entries, Stop(scope));
    }
  }

  lemma ScreenedConserves(l: Ledger, j: nat, anomaly: bool, tokens: int, cost: int)
    requires Conserved(l) && j < |l.entries| && l.entries[j].Call? && Screened(l, j, anomaly, tokens, cost).Success?
    ensures Conserved(Screened(l, j, anomaly, tokens, cost).value)
  {
    if l.entries[j].standing.Open? {
      if anomaly || Exceeds(l.entries[j], tokens, cost) {
        SuspendConserves(l, j);
      } else {
        SettleConserves(l, j, tokens, cost);
      }
    }
  }

  // ---------- whole histories ----------

  /** A report as SettleAccount takes it, or as the store screens it first. */
  datatype Op =
    | Hold(call: Entry) | Report(index: nat, tokens: int, cost: int) | Screen(index: nat, anomaly: bool, tokens: int, cost: int)
    | Halt(scope: Scope)

  /** A refused transaction rolls back all three accounts. */
  function Execute(l: Ledger, op: Op): Ledger {
    match op
    case Hold(e) => if e.Call? && Funded(l, e) && Reserve(l, e).Success? then Reserve(l, e).value else l
    case Report(i, t, c) =>
      if i < |l.entries| && l.entries[i].Call? && Funded(l, l.entries[i]) && Settle(l, i, t, c).Success? then Settle(l, i, t, c).value
      else l
    case Screen(i, anomaly, t, c) =>
      if i < |l.entries| && l.entries[i].Call? && Funded(l, l.entries[i]) && Screened(l, i, anomaly, t, c).Success? then
        Screened(l, i, anomaly, t, c).value
      else l
    case Halt(k) => if k in l.accounts then Freeze(l, k) else l
  }

  function Replay(l: Ledger, ops: seq<Op>): Ledger {
    if ops == [] then l else Execute(Replay(l, ops[..|ops| - 1]), ops[|ops| - 1])
  }

  lemma ExecuteConserves(l: Ledger, op: Op)
    requires Conserved(l)
    ensures Conserved(Execute(l, op))
  {
    match op {
      case Hold(e) =>
        if e.Call? && Funded(l, e) && Reserve(l, e).Success? { ReserveConserves(l, e); }
      case Report(i, t, c) =>
        if i < |l.entries| && l.entries[i].Call? && Funded(l, l.entries[i]) && Settle(l, i, t, c).Success? {
          SettleConserves(l, i, t, c);
        }
      case Screen(i, anomaly, t, c) =>
        if i < |l.entries| && l.entries[i].Call? && Funded(l, l.entries[i]) && Screened(l, i, anomaly, t, c).Success? {
          ScreenedConserves(l, i, anomaly, t, c);
        }
      case Halt(k) =>
        if k in l.accounts { FreezeConserves(l, k); }
    }
  }

  ghost predicate Limited(l: Ledger, limits: map<Scope, Usage>) {
    l.accounts.Keys == limits.Keys && forall k :: k in limits ==> l.accounts[k].limits == limits[k]
  }

  lemma ReserveKeepsLimits(l: Ledger, e: Entry, limits: map<Scope, Usage>)
    requires Limited(l, limits) && e.Call? && Funded(l, e) && Reserve(l, e).Success?
    ensures Limited(Reserve(l, e).value, limits)
  {
  }

  lemma SettleKeepsLimits(l: Ledger, i: nat, tokens: int, cost: int, limits: map<Scope, Usage>)
    requires Limited(l, limits) && i < |l.entries| && l.entries[i].Call? && Funded(l, l.entries[i]) && Settle(l, i, tokens, cost).Success?
    ensures Limited(Settle(l, i, tokens, cost).value, limits)
  {
  }

  lemma ExecuteKeepsLimits(l: Ledger, op: Op, limits: map<Scope, Usage>)
    requires Limited(l, limits)
    ensures Limited(Execute(l, op), limits)
  {
    match op {
      case Hold(e) =>
        if e.Call? && Funded(l, e) && Reserve(l, e).Success? { ReserveKeepsLimits(l, e, limits); }
      case Report(i, t, c) =>
        if i < |l.entries| && l.entries[i].Call? && Funded(l, l.entries[i]) && Settle(l, i, t, c).Success? {
          SettleKeepsLimits(l, i, t, c, limits);
        }
      case Screen(i, anomaly, t, c) =>
        if i < |l.entries| && l.entries[i].Call? && Funded(l, l.entries[i]) && Settle(l, i, t, c).Success? {
          SettleKeepsLimits(l, i, t, c, limits);
        }
      case Halt(_) =>
    }
  }

  /** Over every sequence of reservations, reports and stops, known plus held is used, and used stays within the limits it was opened with. */
  lemma {:induction false} AlwaysConserved(limits: map<Scope, Usage>, ops: seq<Op>)
    requires forall k :: k in limits ==> Valid(limits[k])
    ensures Conserved(Replay(Opened(limits), ops)) && Limited(Replay(Opened(limits), ops), limits)
  {
    if ops == [] {
      OpenedConserved(limits);
    } else {
      var n := |ops| - 1;
      AlwaysConserved(limits, ops[..n]);
      ExecuteConserves(Replay(Opened(limits), ops[..n]), ops[n]);
      ExecuteKeepsLimits(Replay(Opened(limits), ops[..n]), ops[n], limits);
    }
  }

  // ---------- what is admitted ----------

  /** What the history has spent of one field: counts for good, tokens and cost as known or still held. */
  function Spent(entries: seq<Entry>, k: Scope, field: nat): int {
    if field == 7 then Sum(entries, k, KnownTokens) + Sum(entries, k, HeldTokens)
    else if field == 8 then Sum(entries, k, KnownCost) + Sum(entries, k, HeldCost)
    else Sum(entries, k, Counter(field))
  }

  /** The scope has not been frozen and has room for the call in every field. */
  ghost predicate Admits(l: Ledger, k: Scope, delta: Usage)
    requires k in l.accounts
  {
    && !Frozen(l.entries, k)
    && forall f :: 0 <= f < FIELDS ==> Spent(l.entries, k, f) + Fields(delta)[f] <= Fields(l.accounts[k].limits)[f]
  }

  lemma SpentIsUsed(a: Account, k: Scope, entries: seq<Entry>, f: nat)
    requires AccountConserved(a, k, entries) && f < FIELDS
    ensures Fields(a.used)[f] == Spent(entries, k, f)
  {
    assert Value(a, KnownTokens) == a.knownTokens && Value(a, HeldTokens) == a.heldTokens;
    assert Value(a, KnownCost) == a.knownCost && Value(a, HeldCost) == a.heldCost;
    if f < COUNTERS {
      assert Value(a, Counter(f)) == Fields(a.used)[f];
    }
  }

  /** What room means on the account itself. */
  lemma RoomExactly(a: Account, delta: Usage)
    requires Valid(a.limits) && Valid(a.used) && Valid(delta) && !a.frozen
    requires 0 <= a.heldTokens <= a.used.tokens && 0 <= a.heldCost <= a.used.cost
    ensures Reserved(a, delta).Success? <==> forall f :: 0 <= f < FIELDS ==> Fields(a.used)[f] + Fields(delta)[f] <= Fields(a.limits)[f]
    ensures Reserved(a, delta).Failure? ==> Reserved(a, delta).error == BudgetExhausted
  {
    forall f | 0 <= f < FIELDS
      ensures Fields(Plus(a.used, delta))[f] == Fields(a.used)[f] + Fields(delta)[f]
      ensures InRange(Fields(a.limits)[f]) && InRange(Fields(a.used)[f]) && InRange(Fields(delta)[f])
    {
      PlusFields(a.used, delta, f);
    }
    if Valid(Plus(a.used, delta)) {
      assert InRange(Fields(Plus(a.used, delta))[7]) && InRange(Fields(Plus(a.used, delta))[8]);
    }
  }

  lemma ReservedExactly(l: Ledger, k: Scope, delta: Usage)
    requires Conserved(l) && k in l.accounts && Valid(delta)
    ensures Reserved(l.accounts[k], delta).Success? <==> Admits(l, k, delta)
    ensures Reserved(l.accounts[k], delta).Failure? ==> Reserved(l.accounts[k], delta).error == BudgetExhausted
  {
    var a := l.accounts[k];
    assert AccountConserved(a, k, l.entries);
    AmountsNonnegative(a, k, l.entries);
    forall f | 0 <= f < FIELDS ensures Fields(a.used)[f] == Spent(l.entries, k, f) {
      SpentIsUsed(a, k, l.entries, f);
    }
    if !a.frozen {
      RoomExactly(a, delta);
    }
  }

  /** A call is admitted exactly when every one of its three scopes admits it; otherwise nothing is charged and the budget is exhausted. */
  lemma AdmittedExactly(l: Ledger, e: Entry)
    requires Conserved(l) && e.Call? && Funded(l, e) && Valid(e.delta)
    ensures Reserve(l, e).Success? <==> forall k :: k in Charged(e) ==> Admits(l, k, e.delta)
    ensures Reserve(l, e).Failure? ==> Reserve(l, e) == Failure(BudgetExhausted)
  {
    forall k | k in Charged(e)
      ensures Reserved(l.accounts[k], e.delta).Success? <==> Admits(l, k, e.delta)
      ensures Reserved(l.accounts[k], e.delta).Failure? ==> Reserved(l.accounts[k], e.delta).error == BudgetExhausted
    {
      ReservedExactly(l, k, e.delta);
    }
    assert Family(e.family) in Charged(e) && Tenant(e.tenant) in Charged(e) && Batch(e.batch) in Charged(e);
  }

  /** A malformed call is refused as such, unless the first account to be asked is frozen. */
  lemma MalformedRefused(l: Ledger, e: Entry)
    requires Conserved(l) && e.Call? && Funded(l, e) && !Valid(e.delta)
    ensures Reserve(l, e) == Failure(if Frozen(l.entries, Family(e.family)) then BudgetExhausted else InvalidArgument)
  {
    assert Family(e.family) in Charged(e);
    assert AccountConserved(l.accounts[Family(e.family)], Family(e.family), l.entries);
  }

  /** The later history differs from the earlier one in standings and in calls and stops added at the end. */
  ghost predicate Continues(before: seq<Entry>, after: seq<Entry>) {
    && |before| <= |after|
    && forall i :: 0 <= i < |before| ==>
         && Charged(after[i]) == Charged(before[i])
         && (before[i].Stop? || before[i].standing.Anomalous? ==> after[i] == before[i])
  }

  ghost predicate NoneCharged(entries: seq<Entry>, from: nat, k: Scope) {
    forall i :: from <= i < |entries| ==> k !in Charged(entries[i])
  }

  lemma FrozenStays(before: seq<Entry>, after: seq<Entry>, k: Scope)
    requires Frozen(before, k) && Continues(before, after)
    ensures Frozen(after, k)
  {
    var i :| 0 <= i < |before| && Freezes(before[i], k);
    assert Freezes(after[i], k);
  }

  lemma ReportContinues(l: Ledger, i: nat, anomaly: bool, tokens: int, cost: int)
    requires i < |l.entries| && l.entries[i].Call? && Funded(l, l.entries[i]) && Screened(l, i, anomaly, tokens, cost).Success?
    ensures var after := Screened(l, i, anomaly, tokens, cost).value.entries;
            Continues(l.entries, after) && |after| == |l.entries|
  {
  }

  lemma SettleContinues(l: Ledger, i: nat, tokens: int, cost: int)
    requires i < |l.entries| && l.entries[i].Call? && Funded(l, l.entries[i]) && Settle(l, i, tokens, cost).Success?
    ensures var after := Settle(l, i, tokens, cost).value.entries;
            Continues(l.entries, after) && |after| == |l.entries|
  {
  }

  lemma HoldContinues(l: Ledger, e: Entry, k: Scope)
    requires Conserved(l) && Frozen(l.entries, k) && e.Call? && Funded(l, e) && Reserve(l, e).Success?
    ensures Continues(l.entries, Reserve(l, e).value.entries) && NoneCharged(Reserve(l, e).value.entries, |l.entries|, k)
  {
    if k in Charged(e) {
      FrozenRefuses(l, e, k);
    }
  }

  lemma ExecuteContinues(l: Ledger, op: Op, k: Scope)
    requires Conserved(l) && Frozen(l.entries, k)
    ensures Continues(l.entries, Execute(l, op).entries) && NoneCharged(Execute(l, op).entries, |l.entries|, k)
  {
    match op {
      case Hold(e) =>
        if e.Call? && Funded(l, e) && Reserve(l, e).Success? { HoldContinues(l, e, k); }
      case Report(i, t, c) =>
        if i < |l.entries| && l.entries[i].Call? && Funded(l, l.entries[i]) && Settle(l, i, t, c).Success? {
          SettleContinues(l, i, t, c);
        }
      case Screen(i, anomaly, t, c) =>
        if i < |l.entries| && l.entries[i].Call? && Funded(l, l.entries[i]) && Screened(l, i, anomaly, t, c).Success? {
          ReportContinues(l, i, anomaly, t, c);
        }
      case Halt(_) =>
    }
  }

  /** A frozen scope refuses every call, valid or not. */
  lemma FrozenRefuses(l: Ledger, e: Entry, k: Scope)
    requires Conserved(l) && e.Call? && Funded(l, e) && k in Charged(e) && Frozen(l.entries, k)
    ensures Reserve(l, e).Failure?
    ensures Valid(e.delta) ==> Reserve(l, e) == Failure(BudgetExhausted)
  {
    assert AccountConserved(l.accounts[k], k, l.entries);
    assert k == Family(e.family) || k == Tenant(e.tenant) || k == Batch(e.batch);
    if Valid(e.delta) {
      AdmittedExactly(l, e);
    }
  }

  /** Once a scope is frozen, by a stop or an anomalous report, no call is ever charged to it again, whatever else happens. */
  lemma {:induction false} FrozenForever(l: Ledger, k: Scope, ops: seq<Op>)
    requires Conserved(l) && Frozen(l.entries, k)
    ensures var after := Replay(l, ops);
            Conserved(after) && Frozen(after.entries, k) && Continues(l.entries, after.entries) && NoneCharged(after.entries, |l.entries|, k)
  {
    if ops != [] {
      var n := |ops| - 1;
      FrozenForever(l, k, ops[..n]);
      var before := Replay(l, ops[..n]);
      ExecuteConserves(before, ops[n]);
      ExecuteContinues(before, ops[n], k);
      FrozenStays(before.entries, Replay(l, ops).entries, k);
    }
  }

  /** A conserved ledger never reports an internal inconsistency to a caller that wants to reserve. */
  lemma ReserveNeverInternal(l: Ledger, e: Entry)
    requires Conserved(l) && e.Call? && Funded(l, e)
    ensures Reserve(l, e).Failure? ==> Reserve(l, e).error != Internal
  {
    forall k | k in Charged(e) ensures Reserved(l.accounts[k], e.delta).Failure? ==> Reserved(l.accounts[k], e.delta).error != Internal {
      ConservedAccountReserves(l.accounts[k], k, l.entries, e.delta);
    }
  }

  lemma ConservedAccountReserves(a: Account, k: Scope, entries: seq<Entry>, delta: Usage)
    requires AccountConserved(a, k, entries) && forall i :: 0 <= i < |entries| ==> WellFormed(entries[i])
    ensures Reserved(a, delta).Failure? ==> Reserved(a, delta).error != Internal
  {
    AmountsNonnegative(a, k, entries);
    if Added(a.used, delta).Success? {
      var sum := Plus(a.used, delta);
      assert InRange(Fields(sum)[7]) && InRange(Fields(sum)[8]);
    }
  }

  lemma AmountsNonnegative(a: Account, k: Scope, entries: seq<Entry>)
    requires AccountConserved(a, k, entries) && forall i :: 0 <= i < |entries| ==> WellFormed(entries[i])
    ensures InRange(a.heldTokens) && InRange(a.heldCost) && InRange(a.knownTokens) && InRange(a.knownCost)
  {
    SumCovers(entries, k, HeldTokens);
    SumCovers(entries, k, HeldCost);
    SumCovers(entries, k, KnownTokens);
    SumCovers(entries, k, KnownCost);
    assert Value(a, HeldTokens) >= 0 && Value(a, HeldCost) >= 0 && Value(a, KnownTokens) >= 0 && Value(a, KnownCost) >= 0;
    assert InRange(Fields(a.used)[7]) && InRange(Fields(a.used)[8]);
  }

  predicate Overflows(a: Account, tokens: int, cost: int) {
    tokens > MAX_SAFE_INTEGER - a.knownTokens || cost > MAX_SAFE_INTEGER - a.knownCost
  }

  lemma SettledExactly(a: Account, k: Scope, entries: seq<Entry>, j: nat, tokens: int, cost: int)
    requires AccountConserved(a, k, entries) && forall i :: 0 <= i < |entries| ==> WellFormed(entries[i])
    requires j < |entries| && entries[j].Call? && entries[j].standing.Open? && k in Charged(entries[j])
    requires InRange(tokens) && InRange(cost)
    ensures var s := Settled(a, entries[j].delta.tokens, entries[j].delta.cost, tokens, cost);
            && (s.Failure? <==> Overflows(a, tokens, cost))
            && (s.Failure? ==> s.error == Internal && Exceeds(entries[j], tokens, cost))
  {
    var e := entries[j];
    AmountsNonnegative(a, k, entries);
    SumCovers(entries, k, HeldTokens);
    SumCovers(entries, k, HeldCost);
    assert Value(a, HeldTokens) >= Weight(e, k, HeldTokens) && Value(a, HeldCost) >= Weight(e, k, HeldCost);
    assert WellFormed(e) && InRange(Fields(e.delta)[7]) && InRange(Fields(e.delta)[8]);
    assert InRange(Fields(a.used)[7]) && InRange(Fields(a.used)[8]);
  }

  /**
    When settling an open call fails: exactly when a charged account's known total would leave the
    safe range. That check precedes the freezing branch, so an over-bound report of that size is
    refused with an internal error where a smaller one freezes the account; a report within the
    hold never fails.
  */
  lemma SettleRefusedExactly(l: Ledger, j: nat, tokens: int, cost: int)
    requires Conserved(l) && j < |l.entries| && l.entries[j].Call? && l.entries[j].standing.Open?
    requires InRange(tokens) && InRange(cost)
    ensures Settle(l, j, tokens, cost).Failure? <==> exists k :: k in Charged(l.entries[j]) && Overflows(l.accounts[k], tokens, cost)
    ensures Settle(l, j, tokens, cost).Failure? ==>
              Settle(l, j, tokens, cost).error == Internal && Exceeds(l.entries[j], tokens, cost)
  {
    var e := l.entries[j];
    forall k | k in Charged(e)
      ensures var s := Settled(l.accounts[k], e.delta.tokens, e.delta.cost, tokens, cost);
              && (s.Failure? <==> Overflows(l.accounts[k], tokens, cost))
              && (s.Failure? ==> s.error == Internal && Exceeds(e, tokens, cost))
    {
      SettledExactly(l.accounts[k], k, l.entries, j, tokens, cost);
    }
    assert Family(e.family) in Charged(e) && Tenant(e.tenant) in Charged(e) && Batch(e.batch) in Charged(e);
  }

  /**
    The store never meets that refusal: it screens over-bound reports itself, every report it then
    passes on is recorded, and screening changes nothing where SettleAccount would have succeeded.
  */
  lemma ScreenedAlwaysRecorded(l: Ledger, j: nat, anomaly: bool, tokens: int, cost: int)
    requires Conserved(l) && j < |l.entries| && l.entries[j].Call? && l.entries[j].standing.Open? && tokens >= 0 && cost >= 0
    ensures Screened(l, j, anomaly, tokens, cost).Success?
    ensures Screened(l, j, anomaly, tokens, cost).value.entries[j].standing
            == if anomaly || Exceeds(l.entries[j], tokens, cost) then Anomalous else Closed(tokens, cost)
    ensures !anomaly && Settle(l, j, tokens, cost).Success? ==> Screened(l, j, anomaly, tokens, cost) == Settle(l, j, tokens, cost)
  {
    var e := l.entries[j];
    if Exceeds(e, tokens, cost) {
      if Settle(l, j, tokens, cost).Success? {
        ExceedingSettles(l, j, tokens, cost);
      }
    } else if !anomaly {
      assert WellFormed(e) && InRange(Fields(e.delta)[7]) && InRange(Fields(e.delta)[8]);
      SettleRefusedExactly(l, j, tokens, cost);
    }
  }

  lemma ExceedingSettles(l: Ledger, j: nat, tokens: int, cost: int)
    requires Conserved(l) && j < |l.entries| && l.entries[j].Call? && l.entries[j].standing.Open?
    requires Exceeds(l.entries[j], tokens, cost) && Settle(l, j, tokens, cost).Success?
    ensures Settle(l, j, tokens, cost).value == Suspend(l, j)
  {
    var e, after := l.entries[j], Settle(l, j, tokens, cost).value;
    forall k | k in l.accounts ensures after.accounts[k] == Suspend(l, j).accounts[k] {
      if k in Charged(e) {
        assert Settled(l.accounts[k], e.delta.tokens, e.delta.cost, tokens, cost).Success?;
      }
    }
    assert after.accounts == Suspend(l, j).accounts;
  }

  // A run in which SettleAccount alone would refuse: one chat call is settled, a second is held.

  function SampleLimits(): map<Scope, Usage> {
    map[Family("f") := Calls(2), Tenant("t") := Calls(2), Batch("b") := Calls(2)]
  }

  function SampleOps(): seq<Op> {
    var call := Call("f", "t", "b", Calls(1), Open);
    [Hold(call), Report(0, 1, 0), Hold(call)]
  }

  function SampleAccount(calls: int, known: int, held: int): Account {
    Account(Calls(2), Calls(calls), false, known, 0, held, 0)
  }

  function SampleLedger(a: Account, entries: seq<Entry>): Ledger {
    Ledger(map[Family("f") := a, Tenant("t") := a, Batch("b") := a], entries)
  }

  predicate SampleCall(e: Entry) {
    e.Call? && e.family == "f" && e.tenant == "t" && e.batch == "b"
  }

  lemma HoldsEqually(a: Account, after: Account, entries: seq<Entry>, e: Entry)
    requires SampleCall(e) && e.standing.Open? && Reserved(a, e.delta) == Success(after)
    ensures Execute(SampleLedger(a, entries), Hold(e)) == SampleLedger(after, entries + [e])
  {
    var l := SampleLedger(a, entries);
    assert Charged(e) == l.accounts.Keys;
    assert Execute(l, Hold(e)).accounts == SampleLedger(after, []).accounts;
  }

  lemma SettlesEqually(a: Account, after: Account, call: Entry, tokens: int, cost: int)
    requires SampleCall(call) && call.standing.Open? && Settled(a, call.delta.tokens, call.delta.cost, tokens, cost) == Success(after)
    ensures Execute(SampleLedger(a, [call]), Report(0, tokens, cost))
            == SampleLedger(after, [call.(standing := NewStanding(call, tokens, cost))])
  {
    var l, out := SampleLedger(a, [call]), SampleLedger(after, [call.(standing := NewStanding(call, tokens, cost))]);
    assert Charged(call) == l.accounts.Keys;
    assert Execute(l, Report(0, tokens, cost)).accounts == out.accounts;
    assert Execute(l, Report(0, tokens, cost)).entries == out.entries;
  }

  /** `n` calls of the sample. */
  function Calls(n: int): Usage {
    Usage(n, 0, 0, 0, 0, n, 0, n, 0)
  }

  lemma CallsFit(m: int, n: int)
    requires 0 <= m <= n <= 2
    ensures Valid(Calls(m)) && Within(Calls(m), Calls(n))
  {
    assert Fields(Calls(m)) == [m, 0, 0, 0, 0, m, 0, m, 0] && Fields(Calls(n)) == [n, 0, 0, 0, 0, n, 0, n, 0];
  }

  lemma SampleReserves(n: int)
    requires 0 <= n <= 1
    ensures Reserved(SampleAccount(n, n, 0), Calls(1)) == Success(SampleAccount(n + 1, n, 1))
  {
    CallsFit(n, 2);
    CallsFit(1, 2);
    CallsFit(2, 2);
    CallsFit(n + 1, 2);
    assert Plus(Calls(n), Calls(1)) == Calls(n + 1);
    assert Added(Calls(n), Calls(1)) == Success(Calls(n + 1));
  }

  lemma ReplayThree(l: Ledger, ops: seq<Op>)
    requires |ops| == 3
    ensures Replay(l, ops) == Execute(Execute(Execute(l, ops[0]), ops[1]), ops[2])
  {
    assert ops[..2] == [ops[0], ops[1]] && ops[..2][..1] == [ops[0]] && [ops[0]][..0] == [];
    assert Replay(l, [ops[0]]) == Execute(Replay(l, []), ops[0]);
    assert Replay(l, [ops[0], ops[1]]) == Execute(Replay(l, [ops[0]]), ops[1]);
  }

  lemma SampleOpened()
    ensures Opened(SampleLimits()) == SampleLedger(SampleAccount(0, 0, 0), [])
  {
    assert Opened(SampleLimits()).accounts == SampleLedger(SampleAccount(0, 0, 0), []).accounts;
  }

  lemma SampleSettled()
    ensures Settled(SampleAccount(1, 0, 1), 1, 0, 1, 0) == Success(SampleAccount(1, 1, 0))
  {
  }

  lemma SampleSettles(call: Entry)
    requires SampleCall(call) && call.standing.Open? && call.delta == Calls(1)
    ensures Execute(SampleLedger(SampleAccount(1, 0, 1), [call]), Report(0, 1, 0))
            == SampleLedger(SampleAccount(1, 1, 0), [call.(standing := Closed(1, 0))])
  {
    SampleSettled();
    assert NewStanding(call, 1, 0) == Closed(1, 0);
    SettlesEqually(SampleAccount(1, 0, 1), SampleAccount(1, 1, 0), call, 1, 0);
  }

  lemma SampleHolds(n: int, entries: seq<Entry>, call: Entry)
    requires 0 <= n <= 1 && SampleCall(call) && call.standing.Open? && call.delta == Calls(1)
    ensures Execute(SampleLedger(SampleAccount(n, n, 0), entries), Hold(call)) == SampleLedger(SampleAccount(n + 1, n, 1), entries + [call])
  {
    SampleReserves(n);
    HoldsEqually(SampleAccount(n, n, 0), SampleAccount(n + 1, n, 1), entries, call);
  }

  lemma SampleReplay()
    ensures var call := Call("f", "t", "b", Calls(1), Open);
            Replay(Opened(SampleLimits()), SampleOps()) == SampleLedger(SampleAccount(2, 1, 1), [call.(standing := Closed(1, 0)), call])
  {
    var call := Call("f", "t", "b", Calls(1), Open);
    var ops, first := [Hold(call), Report(0, 1, 0), Hold(call)], call.(standing := Closed(1, 0));
    var l0, l1 := SampleLedger(SampleAccount(0, 0, 0), []), SampleLedger(SampleAccount(1, 0, 1), [call]);
    var l2, l3 := SampleLedger(SampleAccount(1, 1, 0), [first]), SampleLedger(SampleAccount(2, 1, 1), [first, call]);
    SampleOpened();
    assert Execute(l0, ops[0]) == l1 by {
      SampleHolds(0, [], call);
      assert [] + [call] == [call];
    }
    assert Execute(l1, ops[1]) == l2 by {
      SampleSettles(call);
    }
    assert Execute(l2, ops[2]) == l3 by {
      SampleHolds(1, [first], call);
      assert [first] + [call] == [first, call];
    }
    ReplayThree(l0, ops);
  }

  /**
    The refusal is real for SettleAccount itself: on a ledger reached from opened accounts by two calls of
    one token, the first of them settled, a report of the whole safe range on the second is an internal
    error. Screened, the same report suspends the call.
  */
  lemma OversizedReportIsInternal()
    ensures var l := Replay(Opened(SampleLimits()), SampleOps());
            && Conserved(l) && |l.entries| == 2 && l.entries[1].Call? && l.entries[1].standing.Open? && Balanced(l.entries[1].delta)
            && Settle(l, 1, MAX_SAFE_INTEGER, 0) == Failure(Internal)
            && Screened(l, 1, false, MAX_SAFE_INTEGER, 0) == Success(Suspend(l, 1))
  {
    SampleReplay();
    CallsFit(2, 2);
    AlwaysConserved(SampleLimits(), SampleOps());
    var l := Replay(Opened(SampleLimits()), SampleOps());
    SettleRefusedExactly(l, 1, MAX_SAFE_INTEGER, 0);
    assert Family("f") in Charged(l.entries[1]) && Overflows(l.accounts[Family("f")], MAX_SAFE_INTEGER, 0);
  }

  // ---------- order of settlement, categories ----------

  /** Two conserved ledgers with the same limits and the same history are the same ledger. */
  lemma HistoryDeterminesAccounts(l: Ledger, m: Ledger)
    requires Conserved(l) && Conserved(m) && l.entries == m.entries && l.accounts.Keys == m.accounts.Keys
    requires forall k :: k in l.accounts ==> l.accounts[k].limits == m.accounts[k].limits
    ensures l == m
  {
    forall k | k in l.accounts ensures l.accounts[k] == m.accounts[k] {
      SameAccount(l.accounts[k], m.accounts[k], k, l.entries);
    }
  }

  lemma SameAccount(a: Account, b: Account, k: Scope, entries: seq<Entry>)
    requires AccountConserved(a, k, entries) && AccountConserved(b, k, entries) && a.limits == b.limits
    ensures a == b
  {
    assert forall c :: Tracked(c) ==> Value(a, c) == Value(b, c);
    assert Value(a, HeldTokens) == Value(b, HeldTokens) && Value(a, HeldCost) == Value(b, HeldCost);
    assert Value(a, KnownTokens) == Value(b, KnownTokens) && Value(a, KnownCost) == Value(b, KnownCost);
    var f, g := Fields(a.used), Fields(b.used);
    forall i | 0 <= i < COUNTERS ensures f[i] == g[i] {
      assert Value(a, Counter(i)) == Value(b, Counter(i));
    }
    assert f[0] == g[0] && f[1] == g[1] && f[2] == g[2] && f[3] == g[3] && f[4] == g[4] && f[5] == g[5] && f[6] == g[6];
  }

  /** Reports within their holds, on distinct open calls. */
  predicate Reports(l: Ledger, ops: seq<Op>) {
    && (forall p :: 0 <= p < |ops| ==>
          && ops[p].Report? && ops[p].index < |l.entries|
          && l.entries[ops[p].index].Call? && l.entries[ops[p].index].standing.Open?
          && 0 <= ops[p].tokens <= l.entries[ops[p].index].delta.tokens && 0 <= ops[p].cost <= l.entries[ops[p].index].delta.cost)
    && (forall p, q :: 0 <= p < q < |ops| ==> ops[p].index != ops[q].index)
  }

  function Outcome(ops: seq<Op>, i: nat): Option<(int, int)>
    requires forall op :: op in ops ==> op.Report?
  {
    if ops == [] then None
    else
      var last := ops[|ops| - 1];
      if last.index == i then Some((last.tokens, last.cost)) else Outcome(ops[..|ops| - 1], i)
  }

  function Recorded(e: Entry, outcome: Option<(int, int)>): Entry {
    if e.Call? && outcome.Some? then e.(standing := Closed(outcome.value.0, outcome.value.1)) else e
  }

  ghost predicate SettledBy(l: Ledger, ops: seq<Op>, after: Ledger)
    requires forall op :: op in ops ==> op.Report?
  {
    && |after.entries| == |l.entries| && SameLimits(l, after)
    && forall i :: 0 <= i < |l.entries| ==> after.entries[i] == Recorded(l.entries[i], Outcome(ops, i))
  }

  predicate SameLimits(l: Ledger, after: Ledger) {
    && after.accounts.Keys == l.accounts.Keys
    && forall k :: k in l.accounts ==> after.accounts[k].limits == l.accounts[k].limits
  }

  lemma {:induction false} OutcomeIsMembership(l: Ledger, ops: seq<Op>, i: nat, tokens: int, cost: int)
    requires Reports(l, ops)
    ensures Outcome(ops, i) == Some((tokens, cost)) <==> Report(i, tokens, cost) in ops
  {
    if ops != [] {
      var n := |ops| - 1;
      assert ops == ops[..n] + [ops[n]];
      OutcomeIsMembership(l, ops[..n], i, tokens, cost);
    }
  }

  lemma {:induction false} NoOutcome(ops: seq<Op>, i: nat)
    requires forall op :: op in ops ==> op.Report? && op.index != i
    ensures Outcome(ops, i).None?
  {
    if ops != [] {
      NoOutcome(ops[..|ops| - 1], i);
    }
  }

  /** Every report within its hold is recorded. */
  lemma {:induction false} ReportsAreRecorded(l: Ledger, ops: seq<Op>)
    requires Conserved(l) && Reports(l, ops)
    ensures Conserved(Replay(l, ops)) && SettledBy(l, ops, Replay(l, ops))
  {
    if ops != [] {
      var n := |ops| - 1;
      ReportsAreRecorded(l, ops[..n]);
      var m, op := Replay(l, ops[..n]), ops[n];
      NoOutcome(ops[..n], op.index);
      assert m.entries[op.index] == l.entries[op.index];
      RecordOne(m, op.index, op.tokens, op.cost);
      assert forall i :: 0 <= i < |l.entries| && i != op.index ==> Outcome(ops, i) == Outcome(ops[..n], i);
    }
  }

  lemma RecordOne(m: Ledger, j: nat, tokens: int, cost: int)
    requires Conserved(m) && j < |m.entries| && m.entries[j].Call? && m.entries[j].standing.Open?
    requires 0 <= tokens <= m.entries[j].delta.tokens && 0 <= cost <= m.entries[j].delta.cost
    ensures var after := Execute(m, Report(j, tokens, cost));
            Conserved(after) && SameLimits(m, after) && after.entries == m.entries[j := m.entries[j].(standing := Closed(tokens, cost))]
  {
    var e := m.entries[j];
    assert WellFormed(e) && InRange(Fields(e.delta)[7]) && InRange(Fields(e.delta)[8]);
    SettleRefusedExactly(m, j, tokens, cost);
    SettleConserves(m, j, tokens, cost);
    LimitsKept(m, j, tokens, cost);
  }

  lemma LimitsKept(l: Ledger, j: nat, tokens: int, cost: int)
    requires j < |l.entries| && l.entries[j].Call? && Funded(l, l.entries[j]) && Settle(l, j, tokens, cost).Success?
    ensures SameLimits(l, Settle(l, j, tokens, cost).value)
  {
  }

  lemma SameOutcome(l: Ledger, ops: seq<Op>, ops': seq<Op>, i: nat)
    requires Reports(l, ops) && Reports(l, ops') && forall op :: op in ops <==> op in ops'
    ensures Outcome(ops, i) == Outcome(ops', i)
  {
    if Outcome(ops, i).Some? {
      var (t, c) := Outcome(ops, i).value;
      OutcomeIsMembership(l, ops, i, t, c);
      OutcomeIsMembership(l, ops', i, t, c);
    } else if Outcome(ops', i).Some? {
      var (t, c) := Outcome(ops', i).value;
      OutcomeIsMembership(l, ops', i, t, c);
      OutcomeIsMembership(l, ops, i, t, c);
    }
  }

  lemma SameEntries(l: Ledger, ops: seq<Op>, ops': seq<Op>, m: Ledger, m': Ledger)
    requires Reports(l, ops) && Reports(l, ops') && forall op :: op in ops <==> op in ops'
    requires SettledBy(l, ops, m) && SettledBy(l, ops', m')
    ensures m.entries == m'.entries
  {
    forall i | 0 <= i < |l.entries| ensures m.entries[i] == m'.entries[i] {
      SameOutcome(l, ops, ops', i);
    }
  }

  lemma SameElements(ops: seq<Op>, ops': seq<Op>)
    requires multiset(ops) == multiset(ops')
    ensures forall op :: op in ops <==> op in ops'
  {
    assert forall op :: op in ops <==> op in multiset(ops);
    assert forall op :: op in ops' <==> op in multiset(ops');
  }

  /** Whatever order the reports arrive in, the ledger ends the same. */
  lemma SettlementOrderIsIrrelevant(l: Ledger, ops: seq<Op>, ops': seq<Op>)
    requires Conserved(l) && Reports(l, ops) && Reports(l, ops') && multiset(ops) == multiset(ops')
    ensures Replay(l, ops) == Replay(l, ops')
  {
    ReportsAreRecorded(l, ops);
    ReportsAreRecorded(l, ops');
    SameElements(ops, ops');
    SameEntries(l, ops, ops', Replay(l, ops), Replay(l, ops'));
    HistoryDeterminesAccounts(Replay(l, ops), Replay(l, ops'));
  }

  predicate Balanced(u: Usage) {
    u.physicalHttp == u.chat + u.queryEmbedding + u.profileMetadataHttp + u.businessToolHttp
  }

  lemma {:induction false} SumBalanced(entries: seq<Entry>, k: Scope)
    requires forall e :: e in entries && e.Call? ==> Balanced(e.delta)
    ensures Sum(entries, k, Counter(5)) ==
              Sum(entries, k, Counter(0)) + Sum(entries, k, Counter(2)) + Sum(entries, k, Counter(3)) + Sum(entries, k, Counter(4))
  {
    if entries != [] {
      SumBalanced(entries[..|entries| - 1], k);
      assert entries[|entries| - 1] in entries;
    }
  }

  /** Physical calls are the sum of the four call categories on every account, as long as each charge is. */
  lemma CategoriesAddUp(l: Ledger, k: Scope)
    requires Conserved(l) && k in l.accounts
    requires forall e :: e in l.entries && e.Call? ==> Balanced(e.delta)
    ensures Balanced(l.accounts[k].used)
  {
    SumBalanced(l.entries, k);
    var a := l.accounts[k];
    assert Value(a, Counter(5)) == Sum(l.entries, k, Counter(5)) && Value(a, Counter(0)) == Sum(l.entries, k, Counter(0));
    assert Value(a, Counter(2)) == Sum(l.entries, k, Counter(2)) && Value(a, Counter(3)) == Sum(l.entries, k, Counter(3));
    assert Value(a, Counter(4)) == Sum(l.entries, k, Counter(4));
  }
}
