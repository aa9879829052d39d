/**
  Budget accounts (internal/run/budget.go): prospective holds and exact settlement. Accounts
  are passed and returned by value, so a failed operation leaves the caller's account alone.
*/
module Budget {
  import opened Wrappers

  const MAX_SAFE_INTEGER := 0x1F_FFFF_FFFF_FFFF
  const FIELDS := 9

  datatype BudgetError = InvalidArgument | BudgetExhausted | Internal

  datatype Usage = Usage(chat: int, logicalTools: int, queryEmbedding: int, profileMetadataHttp: int, businessToolHttp: int,
                         physicalHttp: int, protocolCorrections: int, tokens: int, cost: int)

  datatype Account = Account(limits: Usage, used: Usage, frozen: bool, knownTokens: int, knownCost: int, heldTokens: int, heldCost: int)

  function Fields(u: Usage): (fields: seq<int>)
    ensures |fields| == FIELDS
  {
    [u.chat, u.logicalTools, u.queryEmbedding, u.profileMetadataHttp, u.businessToolHttp, u.physicalHttp, u.protocolCorrections,
     u.tokens, u.cost]
  }

  function FromFields(f: seq<int>): (u: Usage)
    requires |f| == FIELDS
    ensures Fields(u) == f
  {
    Usage(f[0], f[1], f[2], f[3], f[4], f[5], f[6], f[7], f[8])
  }

  predicate InRange(n: int) {
    0 <= n <= MAX_SAFE_INTEGER
  }

  predicate Valid(u: Usage) {
    forall i :: 0 <= i < FIELDS ==> InRange(Fields(u)[i])
  }

  function Plus(a: Usage, b: Usage): Usage {
    Usage(a.chat + b.chat, a.logicalTools + b.logicalTools, a.queryEmbedding + b.queryEmbedding,
          a.profileMetadataHttp + b.profileMetadataHttp, a.businessToolHttp + b.businessToolHttp, a.physicalHttp + b.physicalHttp,
          a.protocolCorrections + b.protocolCorrections, a.tokens + b.tokens, a.cost + b.cost)
  }

  predicate Within(u: Usage, limits: Usage) {
    forall i :: 0 <= i < FIELDS ==> Fields(u)[i] <= Fields(limits)[i]
  }

  lemma PlusFields(a: Usage, b: Usage, i: nat)
    requires i < FIELDS
    ensures Fields(Plus(a, b))[i] == Fields(a)[i] + Fields(b)[i]
  {
  }

  // ---------- specifications ----------

  function Added(current: Usage, delta: Usage): Result<Usage, BudgetError> {
    if !Valid(current) || !Valid(delta) then Failure(InvalidArgument)
    else if !Valid(Plus(current, delta)) then Failure(BudgetExhausted)
    else Success(Plus(current, delta))
  }

  function Reserved(a: Account, delta: Usage): Result<Account, BudgetError> {
    if a.frozen then Failure(BudgetExhausted)
    else if !Valid(a.limits) then Failure(Internal)
    else if Added(a.used, delta).Failure? then Failure(Added(a.used, delta).error)
    else if !Within(Added(a.used, delta).value, a.limits) then Failure(BudgetExhausted)
    else if a.heldTokens < 0 || a.heldCost < 0 || a.heldTokens > MAX_SAFE_INTEGER - delta.tokens
            || a.heldCost > MAX_SAFE_INTEGER - delta.cost then Failure(Internal)
    else Success(a.(used := Added(a.used, delta).value, heldTokens := a.heldTokens + delta.tokens, heldCost := a.heldCost + delta.cost))
  }

  predicate AmountsInRange(a: Account, heldTokens: int, heldCost: int, knownTokens: int, knownCost: int) {
    && InRange(heldTokens) && InRange(heldCost) && InRange(knownTokens) && InRange(knownCost)
    && InRange(a.knownTokens) && InRange(a.knownCost) && InRange(a.heldTokens) && InRange(a.heldCost)
  }

  function Refunded(a: Account, heldTokens: int, heldCost: int, knownTokens: int, knownCost: int): Account {
    var known, cost := a.knownTokens + knownTokens, a.knownCost + knownCost;
    var held, heldMoney := a.heldTokens - heldTokens, a.heldCost - heldCost;
    a.(heldTokens := held, heldCost := heldMoney, knownTokens := known, knownCost := cost,
       used := a.used.(tokens := known + held, cost := cost + heldMoney))
  }

  function Settled(a: Account, heldTokens: int, heldCost: int, knownTokens: int, knownCost: int): Result<Account, BudgetError> {
    if !AmountsInRange(a, heldTokens, heldCost, knownTokens, knownCost) then Failure(InvalidArgument)
    else if heldTokens > a.heldTokens || heldCost > a.heldCost || knownTokens > MAX_SAFE_INTEGER - a.knownTokens
            || knownCost > MAX_SAFE_INTEGER - a.knownCost then Failure(Internal)
    else if knownTokens > heldTokens || knownCost > heldCost then Success(a.(frozen := true))
    else
      var out := Refunded(a, heldTokens, heldCost, knownTokens, knownCost);
      if out.used.tokens > MAX_SAFE_INTEGER || out.used.cost > MAX_SAFE_INTEGER then Failure(Internal) else Success(out)
  }

  // ---------- the loops over the counters ----------

  method AddUsage(current: Usage, delta: Usage) returns (result: Result<Usage, BudgetError>)
    ensures result == Added(current, delta)
  {
    if !Valid(current) || !Valid(delta) {
      return Failure(InvalidArgument);
    }
    var values, additions := Fields(current), Fields(delta);
    for i := 0 to FIELDS
      invariant |values| == FIELDS
      invariant forall j :: 0 <= j < i ==> values[j] == Fields(current)[j] + additions[j] && InRange(values[j])
      invariant forall j :: i <= j < FIELDS ==> values[j] == Fields(current)[j]
    {
      if additions[i] > MAX_SAFE_INTEGER - values[i] {
        PlusFields(current, delta, i);
        return Failure(BudgetExhausted);
      }
      values := values[i := values[i] + additions[i]];
    }
    forall j | 0 <= j < FIELDS ensures values[j] == Fields(Plus(current, delta))[j] {
      PlusFields(current, delta, j);
    }
    assert values == Fields(Plus(current, delta));
    return Success(FromFields(values));
  }

  method ReserveAccount(current: Account, delta: Usage) returns (result: Result<Account, BudgetError>)
    ensures result == Reserved(current, delta)
  {
    if current.frozen {
      return Failure(BudgetExhausted);
    }
    if !Valid(current.limits) {
      return Failure(Internal);
    }
    var used := AddUsage(current.used, delta);
    if used.Failure? {
      return Failure(used.error);
    }
    var values, limits := Fields(used.value), Fields(current.limits);
    for i := 0 to FIELDS
      invariant forall j :: 0 <= j < i ==> values[j] <= limits[j]
    {
      if values[i] > limits[i] {
        return Failure(BudgetExhausted);
      }
    }
    if current.heldTokens < 0 || current.heldCost < 0 || current.heldTokens > MAX_SAFE_INTEGER - delta.tokens
       || current.heldCost > MAX_SAFE_INTEGER - delta.cost
    {
      return Failure(Internal);
    }
    var out := current.(used := used.value);
    out := out.(heldTokens := out.heldTokens + delta.tokens);
    out := out.(heldCost := out.heldCost + delta.cost);
    return Success(out);
  }

  method SettleAccount(current: Account, heldTokens: int, heldCost: int, knownTokens: int, knownCost: int)
    returns (result: Result<Account, BudgetError>)
    ensures result == Settled(current, heldTokens, heldCost, knownTokens, knownCost)
  {
    var values := [heldTokens, heldCost, knownTokens, knownCost,
                   current.knownTokens, current.knownCost, current.heldTokens, current.heldCost];
    for i := 0 to |values|
      invariant forall j :: 0 <= j < i ==> InRange(values[j])
    {
      if !InRange(values[i]) {
        return Failure(InvalidArgument);
      }
    }
    assert InRange(values[0]) && InRange(values[1]) && InRange(values[2]) && InRange(values[3]);
    assert InRange(values[4]) && InRange(values[5]) && InRange(values[6]) && InRange(values[7]);
    if heldTokens > current.heldTokens || heldCost > current.heldCost
       || knownTokens > MAX_SAFE_INTEGER - current.knownTokens || knownCost > MAX_SAFE_INTEGER - current.knownCost
    {
      return Failure(Internal);
    }
    var out := current;
    if knownTokens > heldTokens || knownCost > heldCost {
      return Success(out.(frozen := true));
    }
    out := out.(heldTokens := out.heldTokens - heldTokens);
    out := out.(heldCost := out.heldCost - heldCost);
    out := out.(knownTokens := out.knownTokens + knownTokens);
    out := out.(knownCost := out.knownCost + knownCost);
    if out.knownTokens > MAX_SAFE_INTEGER - out.heldTokens || out.knownCost > MAX_SAFE_INTEGER - out.heldCost {
      return Failure(Internal);
    }
    out := out.(used := out.used.(tokens := out.knownTokens + out.heldTokens, cost := out.knownCost + out.heldCost));
    return Success(out);
  }
}
