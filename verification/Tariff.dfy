/**
  What a call may cost and what it did cost (internal/run/ledger.go,
  internal/run/provider_audit_report.go). Money is integral microyuan; a price is a rational
  per token with a common denominator, and the total is rounded up once.
*/
module Tariff {
  import opened Wrappers
  import opened Budget

  datatype Pricing = Pricing(denominator: int, inputMiss: int, inputHit: int, output: int)

  datatype Counts = Counts(input: int, output: int, cached: int)

  datatype CallBudget = CallBudget(input: int, output: int, total: int, cost: int)

  // ---------- the exact cost ----------

  function Terms(price: Pricing, usage: Counts): seq<(int, int)> {
    [(usage.input - usage.cached, price.inputMiss), (usage.cached, price.inputHit), (usage.output, price.output)]
  }

  function SumTerms(terms: seq<(int, int)>): int {
    if terms == [] then 0 else SumTerms(terms[..|terms| - 1]) + terms[|terms| - 1].0 * terms[|terms| - 1].1
  }

  /** The cost times the denominator, before rounding. */
  function Numerator(price: Pricing, usage: Counts): int {
    (usage.input - usage.cached) * price.inputMiss + usage.cached * price.inputHit + usage.output * price.output
  }

  predicate Priceable(price: Pricing, usage: Counts) {
    && 0 < price.denominator <= MAX_SAFE_INTEGER && InRange(price.inputMiss) && InRange(price.inputHit) && InRange(price.output)
    && InRange(usage.input) && InRange(usage.output) && InRange(usage.cached) && usage.cached <= usage.input
  }

  function Cost(price: Pricing, usage: Counts): Result<int, BudgetError> {
    if !Priceable(price, usage) then Failure(InvalidArgument)
    else
      var ceiling := (Numerator(price, usage) + price.denominator - 1) / price.denominator;
      if ceiling > MAX_SAFE_INTEGER then Failure(BudgetExhausted) else Success(ceiling)
  }

  lemma TermsSum(price: Pricing, usage: Counts)
    ensures SumTerms(Terms(price, usage)) == Numerator(price, usage)
  {
    var terms := Terms(price, usage);
    assert terms[..2][..1] == terms[..1] && terms[..1][..0] == [];
    assert SumTerms(terms[..1]) == terms[0].0 * terms[0].1;
    assert SumTerms(terms[..2]) == SumTerms(terms[..1]) + terms[1].0 * terms[1].1;
  }

  method UsageCost(price: Pricing, usage: Counts) returns (result: Result<int, BudgetError>)
    ensures result == Cost(price, usage)
  {
    var values := [price.denominator, price.inputMiss, price.inputHit, price.output, usage.input, usage.output, usage.cached];
    for i := 0 to |values|
      invariant forall j :: 0 <= j < i ==> InRange(values[j])
    {
      if !InRange(values[i]) {
        return Failure(InvalidArgument);
      }
    }
    assert InRange(values[0]) && InRange(values[1]) && InRange(values[2]) && InRange(values[3]);
    assert InRange(values[4]) && InRange(values[5]) && InRange(values[6]);
    if price.denominator == 0 || usage.cached > usage.input {
      return Failure(InvalidArgument);
    }
    var numerator, terms := 0, Terms(price, usage);
    for i := 0 to |terms|
      invariant numerator == SumTerms(terms[..i])
    {
      assert terms[..i + 1][..i] == terms[..i];
      numerator := numerator + terms[i].0 * terms[i].1;
    }
    assert terms[..|terms|] == terms;
    TermsSum(price, usage);
    numerator := numerator + (price.denominator - 1);
    numerator := numerator / price.denominator;
    if numerator > MAX_SAFE_INTEGER {
      return Failure(BudgetExhausted);
    }
    return Success(numerator);
  }

  lemma DivisionBounds(n: int, d: int)
    requires d > 0
    ensures (n / d) * d <= n < (n / d + 1) * d
  {
  }

  lemma NumeratorNonnegative(price: Pricing, usage: Counts)
    requires Priceable(price, usage)
    ensures Numerator(price, usage) >= 0
  {
    ProductNonnegative(usage.input - usage.cached, price.inputMiss);
    ProductNonnegative(usage.cached, price.inputHit);
    ProductNonnegative(usage.output, price.output);
  }

  lemma ProductNonnegative(a: int, b: int)
    requires a >= 0 && b >= 0
    ensures a * b >= 0
  {
  }

  /** The price is the least whole amount that covers the exact rational tariff; only overflow past the safe range is refused. */
  lemma CostIsExactCeiling(price: Pricing, usage: Counts)
    requires Priceable(price, usage)
    ensures match Cost(price, usage)
            case Success(c) =>
              0 <= c <= MAX_SAFE_INTEGER && Numerator(price, usage) <= c * price.denominator < Numerator(price, usage) + price.denominator
            case Failure(e) => e == BudgetExhausted && Numerator(price, usage) > MAX_SAFE_INTEGER * price.denominator
  {
    var n, d := Numerator(price, usage), price.denominator;
    NumeratorNonnegative(price, usage);
    DivisionBounds(n + d - 1, d);
    var q := (n + d - 1) / d;
    assert q * d <= n + d - 1 < q * d + d;
    if q > MAX_SAFE_INTEGER {
      ProductNonnegative(q - MAX_SAFE_INTEGER - 1, d);
      assert (q - MAX_SAFE_INTEGER - 1) * d == q * d - (MAX_SAFE_INTEGER + 1) * d;
    }
  }

  // ---------- the reservation ----------

  datatype Subcall = GetOrder | GetDelivery | ProfileVersion | ProfileTags | QueryEmbedding | SearchPolicy | ReadPolicyBundle | Chat
                   | OtherSubcall(text: string)

  datatype CallKind = ChatCall | EmbeddingCall | MetadataCall | BusinessCall | UnknownCall

  function KindOf(subcall: Subcall): CallKind {
    match subcall
    case Chat => ChatCall
    case QueryEmbedding => EmbeddingCall
    case ProfileVersion => MetadataCall
    case ProfileTags => MetadataCall
    case GetOrder => BusinessCall
    case GetDelivery => BusinessCall
    case SearchPolicy => BusinessCall
    case ReadPolicyBundle => BusinessCall
    case OtherSubcall(_) => UnknownCall
  }

  const EMBEDDING_TOKENS := 512

  datatype BudgetRefusal = ProfileUnavailable | Refused(error: BudgetError)

  /** The most expensive split of the allowed input between cached and uncached. */
  function UpperCounts(price: Pricing, maxInput: int, maxOutput: int): Counts {
    Counts(maxInput, maxOutput, if price.inputHit > price.inputMiss then maxInput else 0)
  }

  function ReservationBudget(price: Pricing, maxInput: int, maxOutput: int, subcall: Subcall, maximum: int)
    : Result<CallBudget, BudgetRefusal>
  {
    match KindOf(subcall)
    case ChatCall =>
      if maxInput < 1 || maxInput > MAX_SAFE_INTEGER || maxOutput < 1 || maxOutput > maximum
         || maxInput > MAX_SAFE_INTEGER - maxOutput then Failure(ProfileUnavailable)
      else
        var cost := Cost(price, UpperCounts(price, maxInput, maxOutput));
        if cost.Failure? then Failure(Refused(cost.error))
        else Success(CallBudget(maxInput, maxOutput, maxInput + maxOutput, cost.value))
    case EmbeddingCall => Success(CallBudget(EMBEDDING_TOKENS, 0, EMBEDDING_TOKENS, 0))
    case UnknownCall => Failure(Refused(InvalidArgument))
    case _ => Success(CallBudget(0, 0, 0, 0))
  }

  lemma ProductMonotone(a: int, b: int, c: int)
    requires 0 <= a <= b && c >= 0
    ensures a * c <= b * c
  {
  }

  lemma NumeratorBelowUpper(price: Pricing, usage: Counts, maxInput: int, maxOutput: int)
    requires Priceable(price, usage) && usage.input <= maxInput && usage.output <= maxOutput
    ensures Numerator(price, usage) <= Numerator(price, UpperCounts(price, maxInput, maxOutput))
  {
    var rate := if price.inputHit > price.inputMiss then price.inputHit else price.inputMiss;
    ProductMonotone(usage.output, maxOutput, price.output);
    ProductMonotone(usage.input, maxInput, rate);
    SplitBelow(usage.input, usage.cached, price.inputMiss, price.inputHit, rate);
  }

  lemma SplitBelow(input: int, cached: int, miss: int, hit: int, rate: int)
    requires 0 <= cached <= input && 0 <= miss <= rate && 0 <= hit <= rate
    ensures (input - cached) * miss + cached * hit <= input * rate
  {
    ProductMonotone(miss, rate, input - cached);
    ProductMonotone(hit, rate, cached);
    assert (input - cached) * rate + cached * rate == input * rate;
  }

  lemma ScaledOrder(a: int, b: int, d: int)
    requires d > 0
    ensures a <= b ==> a * d <= b * d
  {
  }

  lemma QuotientMonotone(m: int, n: int, d: int)
    requires m <= n && d > 0
    ensures m / d <= n / d
  {
    DivisionBounds(m, d);
    DivisionBounds(n, d);
    ScaledOrder(n / d + 1, m / d, d);
  }

  /** The reserved cost is a true upper bound: no usage within the reserved tokens, however cached, costs more. */
  lemma ReservationCoversUsage(price: Pricing, maxInput: int, maxOutput: int, maximum: int, usage: Counts)
    requires ReservationBudget(price, maxInput, maxOutput, Chat, maximum).Success?
    requires Priceable(price, usage) && usage.input <= maxInput && usage.output <= maxOutput
    ensures Cost(price, usage).Success?
    ensures Cost(price, usage).value <= ReservationBudget(price, maxInput, maxOutput, Chat, maximum).value.cost
  {
    var upper := UpperCounts(price, maxInput, maxOutput);
    NumeratorBelowUpper(price, usage, maxInput, maxOutput);
    QuotientMonotone(Numerator(price, usage) + price.denominator - 1, Numerator(price, upper) + price.denominator - 1, price.denominator);
  }

  /** What each subcall is given: a chat what it was asked for, if that is sensible and affordable, an embedding 512 tokens, the rest nothing. */
  lemma BudgetExactly(price: Pricing, maxInput: int, maxOutput: int, subcall: Subcall, maximum: int)
    ensures var budget := ReservationBudget(price, maxInput, maxOutput, subcall, maximum);
            match subcall
            case Chat =>
              if !(1 <= maxInput && 1 <= maxOutput <= maximum && maxInput <= MAX_SAFE_INTEGER && maxInput + maxOutput <= MAX_SAFE_INTEGER)
              then budget == Failure(ProfileUnavailable)
              else if budget.Success? then
                budget.value.input == maxInput && budget.value.output == maxOutput && budget.value.total == maxInput + maxOutput
              else Cost(price, UpperCounts(price, maxInput, maxOutput)) == Failure(budget.error.error)
            case QueryEmbedding => budget == Success(CallBudget(512, 0, 512, 0))
            case OtherSubcall(_) => budget == Failure(Refused(InvalidArgument))
            case _ => budget == Success(CallBudget(0, 0, 0, 0))
  {
  }

  /** The bound is attained, so no smaller reservation would do. */
  lemma ReservationIsAttained(price: Pricing, maxInput: int, maxOutput: int, maximum: int)
    requires ReservationBudget(price, maxInput, maxOutput, Chat, maximum).Success?
    ensures exists usage :: Priceable(price, usage) && usage.input <= maxInput && usage.output <= maxOutput
              && Cost(price, usage) == Success(ReservationBudget(price, maxInput, maxOutput, Chat, maximum).value.cost)
  {
    assert Priceable(price, UpperCounts(price, maxInput, maxOutput));
  }

  /** Irrevocable category counts and the conservative hold. */
  function ReservationUsage(correction: bool, subcall: Subcall, budget: CallBudget): Usage {
    var kind := KindOf(subcall);
    Usage(if kind.ChatCall? then 1 else 0, 0, if kind.EmbeddingCall? then 1 else 0, if kind.MetadataCall? then 1 else 0,
          if kind.BusinessCall? then 1 else 0, 1, if kind.ChatCall? && correction then 1 else 0, budget.total, budget.cost)
  }

  /** Each physical call is counted in exactly one category, unless its capability is unknown; those are never budgeted. */
  lemma OneCategoryPerCall(correction: bool, subcall: Subcall, budget: CallBudget, price: Pricing, i: int, o: int, maximum: int)
    ensures var u := ReservationUsage(correction, subcall, budget);
            u.physicalHttp == u.chat + u.queryEmbedding + u.profileMetadataHttp + u.businessToolHttp <==> !KindOf(subcall).UnknownCall?
    ensures KindOf(subcall).UnknownCall? ==> ReservationBudget(price, i, o, subcall, maximum).Failure?
  {
  }

  /** What a subcall is counted as. */
  predicate CountsAs(subcall: Subcall, chat: int, embedding: int, metadata: int, business: int) {
    match subcall
    case Chat => (chat, embedding, metadata, business) == (1, 0, 0, 0)
    case QueryEmbedding => (chat, embedding, metadata, business) == (0, 1, 0, 0)
    case ProfileVersion => (chat, embedding, metadata, business) == (0, 0, 1, 0)
    case ProfileTags => (chat, embedding, metadata, business) == (0, 0, 1, 0)
    case GetOrder => (chat, embedding, metadata, business) == (0, 0, 0, 1)
    case GetDelivery => (chat, embedding, metadata, business) == (0, 0, 0, 1)
    case SearchPolicy => (chat, embedding, metadata, business) == (0, 0, 0, 1)
    case ReadPolicyBundle => (chat, embedding, metadata, business) == (0, 0, 0, 1)
    case OtherSubcall(_) => (chat, embedding, metadata, business) == (0, 0, 0, 0)
  }

  /** What reserving a call does to an account: one more physical call, counted in its category, and its whole budget held. */
  lemma CallIsCharged(correction: bool, subcall: Subcall, budget: CallBudget, before: Account, after: Account)
    requires Reserved(before, ReservationUsage(correction, subcall, budget)) == Success(after)
    ensures var u, v := before.used, after.used;
            && v.physicalHttp == u.physicalHttp + 1 && v.logicalTools == u.logicalTools
            && CountsAs(subcall, v.chat - u.chat, v.queryEmbedding - u.queryEmbedding, v.profileMetadataHttp - u.profileMetadataHttp,
                        v.businessToolHttp - u.businessToolHttp)
            && v.protocolCorrections == u.protocolCorrections + (if subcall.Chat? && correction then 1 else 0)
            && v.tokens == u.tokens + budget.total && v.cost == u.cost + budget.cost
            && after.heldTokens == before.heldTokens + budget.total && after.heldCost == before.heldCost + budget.cost
            && after.knownTokens == before.knownTokens && after.knownCost == before.knownCost && !after.frozen
  {
  }

  // ---------- the first report on a call ----------

  datatype IdentityState = Compatible | Incompatible | InvalidIdentity | OtherIdentity
  datatype ModeState = Nonthinking | Thinking | UnexpectedMode | InvalidMode | OtherMode

  datatype Audit = Audit(identity: IdentityState, mode: ModeState, reasoningInvalid: bool, responseComplete: bool, httpStatus: int,
                         schemaVersion: int)

  datatype Report = Report(usage: Option<Counts>, audit: Option<Audit>)

  datatype StopCode = MeasurementAnomaly | HttpRejected | IdentityRejected | ModeRejected | UsageUnknown

  datatype Settlement = Recorded | Anomaly | SettledReport

  datatype Disposition = Disposition(priceEligible: bool, anomaly: bool, usageKnown: bool, knownTokens: int, knownCost: int,
                                     settlement: Settlement, stop: Option<StopCode>)

  /** The structural part of report validation; hashes and provider identity text are not modelled. */
  predicate ValidReport(subcall: Subcall, report: Report) {
    && (report.usage.Some? ==>
          && InRange(report.usage.value.input) && InRange(report.usage.value.output)
          && 0 <= report.usage.value.cached <= report.usage.value.input)
    && match subcall
       case QueryEmbedding => report.usage.Some? && report.audit.None?
       case Chat =>
         && report.audit.Some?
         && (report.usage.Some? ==> report.usage.value.input <= MAX_SAFE_INTEGER - report.usage.value.output)
       case _ => false
  }

  predicate ValidBudget(b: CallBudget) {
    && InRange(b.input) && InRange(b.output) && InRange(b.total) && InRange(b.cost)
    && b.input <= MAX_SAFE_INTEGER - b.output && b.total == b.input + b.output
  }

  function AuditStop(subcall: Subcall, allowThinking: bool, audit: Option<Audit>, eligible: bool): Option<StopCode> {
    if !subcall.Chat? || audit.None? then None
    else
      var a := audit.value;
      if a.responseComplete && a.httpStatus != 200 then Some(HttpRejected)
      else if a.responseComplete && (a.identity.Incompatible? || a.identity.InvalidIdentity?) then Some(IdentityRejected)
      else if a.mode.UnexpectedMode? || a.mode.InvalidMode? || a.reasoningInvalid || (a.mode.Thinking? && !allowThinking)
              || ((a.schemaVersion == 2) != allowThinking) then Some(ModeRejected)
      else if !eligible then Some(UsageUnknown)
      else None
  }

  predicate CountsExceed(subcall: Subcall, u: Counts, budget: CallBudget) {
    u.input > budget.input || u.output > budget.output || u.input > MAX_SAFE_INTEGER - u.output
    || u.input + u.output > budget.total || (subcall.QueryEmbedding? && u.cached != 0)
  }

  predicate Eligible(subcall: Subcall, report: Report)
    requires ValidReport(subcall, report)
  {
    report.usage.Some? && (subcall.QueryEmbedding? || report.audit.value.identity.Compatible?)
  }

  /** What the report costs; only an eligible chat is priced. */
  function Priced(subcall: Subcall, report: Report, price: Pricing): Result<int, BudgetError>
    requires ValidReport(subcall, report)
  {
    if Eligible(subcall, report) && subcall.Chat? then Cost(price, report.usage.value) else Success(0)
  }

  function Disposed(subcall: Subcall, allowThinking: bool, report: Report, budget: CallBudget, cost: Result<int, BudgetError>): Disposition
    requires ValidReport(subcall, report)
  {
    var eligible := Eligible(subcall, report);
    var anomaly := report.usage.Some? &&
      (CountsExceed(subcall, report.usage.value, budget) || cost.Failure? || cost.value > budget.cost);
    if anomaly then Disposition(eligible, true, false, 0, 0, Anomaly, Some(MeasurementAnomaly))
    else
      var stop := AuditStop(subcall, allowThinking, report.audit, eligible);
      if eligible && cost.Success? then
        Disposition(true, false, true, report.usage.value.input + report.usage.value.output, cost.value, SettledReport, stop)
      else Disposition(false, false, false, 0, 0, Recorded, stop)
  }

  function FirstReportDisposition(subcall: Subcall, allowThinking: bool, report: Report, budget: CallBudget, price: Pricing)
    : Result<Disposition, BudgetError>
  {
    if !ValidReport(subcall, report) || !ValidBudget(budget) then Failure(InvalidArgument)
    else
      var cost := Priced(subcall, report, price);
      if cost.Failure? && cost.error != BudgetExhausted then Failure(cost.error)
      else Success(Disposed(subcall, allowThinking, report, budget, cost))
  }

  /** A settled report stays within its hold in both dimensions, so settling it never freezes an account. */
  lemma SettledWithinHold(subcall: Subcall, allowThinking: bool, report: Report, budget: CallBudget, price: Pricing, account: Account)
    requires FirstReportDisposition(subcall, allowThinking, report, budget, price).Success?
    requires FirstReportDisposition(subcall, allowThinking, report, budget, price).value.settlement.SettledReport?
    ensures var d := FirstReportDisposition(subcall, allowThinking, report, budget, price).value;
            && 0 <= d.knownTokens <= budget.total && 0 <= d.knownCost <= budget.cost
            && d.knownTokens == report.usage.value.input + report.usage.value.output
            && (Settled(account, budget.total, budget.cost, d.knownTokens, d.knownCost).Success? ==>
                  Settled(account, budget.total, budget.cost, d.knownTokens, d.knownCost).value.frozen == account.frozen)
  {
    if subcall.Chat? {
      CostIsExactCeiling(price, report.usage.value);
    }
  }

  /** An honest report on a compatible model, within the tokens that were reserved, is always settled and never an anomaly. */
  lemma HonestReportSettles(allowThinking: bool, report: Report, price: Pricing, maxInput: int, maxOutput: int, maximum: int)
    requires ReservationBudget(price, maxInput, maxOutput, Chat, maximum).Success?
    requires ValidReport(Chat, report) && report.usage.Some? && report.audit.value.identity.Compatible?
    requires report.usage.value.input <= maxInput && report.usage.value.output <= maxOutput
    ensures var budget := ReservationBudget(price, maxInput, maxOutput, Chat, maximum).value;
            var d := FirstReportDisposition(Chat, allowThinking, report, budget, price);
            d.Success? && d.value.settlement.SettledReport? && Success(d.value.knownCost) == Cost(price, report.usage.value)
  {
    ReservationCoversUsage(price, maxInput, maxOutput, maximum, report.usage.value);
    CostIsExactCeiling(price, UpperCounts(price, maxInput, maxOutput));
  }

  /** A chat report that measures more than was reserved, in tokens of either kind or in money. */
  predicate OverReserved(price: Pricing, u: Counts, budget: CallBudget) {
    u.input > budget.input || u.output > budget.output || !Priceable(price, u) || Numerator(price, u) > budget.cost * price.denominator
  }

  /** An answer the run may build on: complete only with status 200, thinking only where the profile allows it, and well reasoned. */
  predicate Sound(audit: Audit, allowThinking: bool) {
    && (audit.responseComplete ==> audit.httpStatus == 200) && !audit.reasoningInvalid
    && (audit.mode.Nonthinking? || audit.mode.OtherMode? || (audit.mode.Thinking? && allowThinking))
    && (audit.schemaVersion == 2 <==> allowThinking)
  }

  /**
    How a compatible chat report on a priced reservation ends: it is an anomaly exactly when it measures
    more than was reserved, otherwise it is settled; and its batch goes on exactly if the answer is sound too.
  */
  lemma ReportOutcome(allowThinking: bool, report: Report, price: Pricing, maxInput: int, maxOutput: int, maximum: int)
    requires ReservationBudget(price, maxInput, maxOutput, Chat, maximum).Success?
    requires ValidReport(Chat, report) && report.usage.Some? && report.audit.value.identity.Compatible?
    ensures var budget := ReservationBudget(price, maxInput, maxOutput, Chat, maximum).value;
            var d := FirstReportDisposition(Chat, allowThinking, report, budget, price);
            && d.Success?
            && (d.value.settlement.Anomaly? <==> OverReserved(price, report.usage.value, budget))
            && (d.value.settlement.Anomaly? ==> d.value.stop == Some(MeasurementAnomaly) && !d.value.usageKnown)
            && (!d.value.settlement.Anomaly? ==> d.value.settlement.SettledReport?)
            && (d.value.stop.None? <==> d.value.settlement.SettledReport? && Sound(report.audit.value, allowThinking))
            && (d.value.settlement.SettledReport? && d.value.stop.Some? ==>
                  d.value.stop.value
                  == if report.audit.value.responseComplete && report.audit.value.httpStatus != 200 then HttpRejected else ModeRejected)
  {
    var u, budget := report.usage.value, ReservationBudget(price, maxInput, maxOutput, Chat, maximum).value;
    CostIsExactCeiling(price, UpperCounts(price, maxInput, maxOutput));
    CostIsExactCeiling(price, u);
    if u.input <= budget.input && u.output <= budget.output {
      ReservationCoversUsage(price, maxInput, maxOutput, maximum, u);
    }
  }

  /** A report whose provider is not the expected one is recorded without a price, or is an anomaly; it never goes on. */
  lemma UnexpectedProviderStops(allowThinking: bool, report: Report, budget: CallBudget, price: Pricing)
    requires ValidReport(Chat, report) && ValidBudget(budget) && !report.audit.value.identity.Compatible?
    ensures var d, audit := FirstReportDisposition(Chat, allowThinking, report, budget, price), report.audit.value;
            && d.Success? && !d.value.settlement.SettledReport? && !d.value.usageKnown && d.value.stop.Some?
            && (d.value.stop == Some(HttpRejected) ==> audit.responseComplete && audit.httpStatus != 200)
            && (d.value.stop == Some(IdentityRejected) ==>
                  audit.responseComplete && (audit.identity.Incompatible? || audit.identity.InvalidIdentity?))
            && (d.value.stop == Some(ModeRejected) ==> !Sound(audit, allowThinking))
            && (d.value.stop == Some(MeasurementAnomaly) <==> d.value.settlement.Anomaly?)
  {
  }

  /** An embedding is an anomaly exactly when it measures more than its tokens, any output or any cached input; it costs nothing. */
  lemma EmbeddingDisposed(allowThinking: bool, report: Report, budget: CallBudget)
    requires report.usage.Some? && ValidReport(QueryEmbedding, report)
    requires budget.input == budget.total == 512 && budget.output == budget.cost == 0
    ensures var d, u := Disposed(QueryEmbedding, allowThinking, report, budget, Success(0)), report.usage.value;
            if u.input > 512 || u.output > 0 || u.cached > 0 then d.settlement.Anomaly? && d.stop == Some(MeasurementAnomaly)
            else d.settlement.SettledReport? && d.knownTokens == u.input && d.knownCost == 0 && d.stop.None?
  {
  }

  lemma EmbeddingIsFree(report: Report, price: Pricing)
    requires ValidReport(QueryEmbedding, report)
    ensures Priced(QueryEmbedding, report, price) == Success(0)
  {
  }

  lemma DisposedAtPrice(subcall: Subcall, allowThinking: bool, report: Report, budget: CallBudget, price: Pricing, cost: int)
    requires ValidReport(subcall, report) && ValidBudget(budget) && Priced(subcall, report, price) == Success(cost)
    ensures FirstReportDisposition(subcall, allowThinking, report, budget, price)
            == Success(Disposed(subcall, allowThinking, report, budget, Success(cost)))
  {
  }

  lemma EmbeddingOutcome(allowThinking: bool, report: Report, budget: CallBudget, price: Pricing)
    requires report.usage.Some? && ValidReport(QueryEmbedding, report)
    requires budget.input == budget.total == 512 && budget.output == budget.cost == 0
    ensures var d, u := FirstReportDisposition(QueryEmbedding, allowThinking, report, budget, price), report.usage.value;
            && d.Success?
            && if u.input > 512 || u.output > 0 || u.cached > 0 then d.value.settlement.Anomaly? && d.value.stop == Some(MeasurementAnomaly)
               else d.value.settlement.SettledReport? && d.value.knownTokens == u.input && d.value.knownCost == 0 && d.value.stop.None?
  {
    EmbeddingDisposed(allowThinking, report, budget);
    EmbeddingIsFree(report, price);
    DisposedAtPrice(QueryEmbedding, allowThinking, report, budget, price, 0);
  }
}
