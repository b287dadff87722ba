/** evaluateInvoiceRisk: five weighted rules, a level, and a hash that binds the evidence. */
module Risk {
  import opened Basics
  import opened Json
  import opened JsonProofs
  import opened JsonOrder

  datatype Level = LOW | MEDIUM | HIGH

  datatype Snapshot = Snapshot(
    ruleVersion: nat, mediumThreshold: nat, highThreshold: nat,
    changedBankAccountScore: nat, duplicateHashScore: nat, duplicateInvoiceNumberScore: nat,
    contractLimitScore: nat, amountSpikeScore: nat)

  datatype Facts = Facts(
    bankAccountVersion: Option<nat>, exactDocumentDuplicate: bool, duplicateInvoiceNumber: bool,
    totalAmount: Option<Text>, contractValueLimit: Option<Text>, priorInvoiceAverage: Option<Text>)

  datatype Contribution = Contribution(rule: Text, score: nat, explanation: Text, evidence: Text)

  datatype Evaluation = Evaluation(
    ruleVersion: nat, facts: Facts, contributions: seq<Contribution>,
    totalScore: nat, level: Level, evidenceHash: Digest)

  datatype Rule = BankAccountChanged | ExactDuplicate | DuplicateNumber | LimitExceeded | AmountSpike

  // ---------------------------------------------------------------- the rules, said one by one

  function Amount(t: Option<Text>): Option<nat> {
    if t.None? then None else Decimal(t.value)
  }

  predicate Triggered(rule: Rule, facts: Facts) {
    var total := Amount(facts.totalAmount);
    match rule
    case BankAccountChanged => facts.bankAccountVersion.Some? && facts.bankAccountVersion.value > 1
    case ExactDuplicate => facts.exactDocumentDuplicate
    case DuplicateNumber => facts.duplicateInvoiceNumber
    case LimitExceeded =>
      var limit := Amount(facts.contractValueLimit);
      total.Some? && limit.Some? && total.value > limit.value
    case AmountSpike =>
      var average := Amount(facts.priorInvoiceAverage);
      total.Some? && average.Some? && average.value > 0 && total.value >= average.value * 2
  }

  function ScoreOf(rule: Rule, p: Snapshot): nat {
    match rule
    case BankAccountChanged => p.changedBankAccountScore
    case ExactDuplicate => p.duplicateHashScore
    case DuplicateNumber => p.duplicateInvoiceNumberScore
    case LimitExceeded => p.contractLimitScore
    case AmountSpike => p.amountSpikeScore
  }

  function RuleName(rule: Rule): Text {
    match rule
    case BankAccountChanged => Lit("VENDOR_BANK_ACCOUNT_CHANGED")
    case ExactDuplicate => Lit("EXACT_DOCUMENT_DUPLICATE")
    case DuplicateNumber => Lit("DUPLICATE_INVOICE_NUMBER")
    case LimitExceeded => Lit("CONTRACT_VALUE_LIMIT_EXCEEDED")
    case AmountSpike => Lit("AMOUNT_SPIKE")
  }

  // What a template string prints for a nullable text.
  function Shown(t: Option<Text>): Text { if t.None? then Lit("null") else t.value }

  function Explain(rule: Rule, facts: Facts): Text {
    match rule
    case BankAccountChanged =>
      Lit("Vendor bank account version ")
      + (if facts.bankAccountVersion.None? then Lit("null") else NatText(facts.bankAccountVersion.value))
      + Lit(" is newer than the original account.")
    case ExactDuplicate =>
      Lit("The approved source document matches an earlier tenant-scoped SHA-256 fingerprint.")
    case DuplicateNumber =>
      Lit("The vendor has another invoice with the same normalized invoice number.")
    case LimitExceeded =>
      Lit("Invoice total ") + Shown(facts.totalAmount) + Lit(" exceeds the contract limit ")
      + Shown(facts.contractValueLimit) + Lit(".")
    case AmountSpike =>
      Lit("Invoice total is at least twice the vendor's prior invoice average of ")
      + Shown(facts.priorInvoiceAverage) + Lit(".")
  }

  function EvidencePath(rule: Rule, invoiceId: Text): Text {
    Lit("/api/v1/invoices/") + invoiceId + Lit("/risk/evidence/") +
    match rule
    case BankAccountChanged => Lit("vendor-bank-history")
    case ExactDuplicate => Lit("document-fingerprint")
    case DuplicateNumber => Lit("invoice-number")
    case LimitExceeded => Lit("contract")
    case AmountSpike => Lit("vendor-amount-history")
  }

  function Contribute(rule: Rule, invoiceId: Text, facts: Facts, p: Snapshot): seq<Contribution> {
    if Triggered(rule, facts)
    then [Contribution(RuleName(rule), ScoreOf(rule, p), Explain(rule, facts), EvidencePath(rule, invoiceId))]
    else []
  }

  function Contributions(invoiceId: Text, facts: Facts, p: Snapshot): seq<Contribution> {
    Contribute(BankAccountChanged, invoiceId, facts, p) + Contribute(ExactDuplicate, invoiceId, facts, p)
    + Contribute(DuplicateNumber, invoiceId, facts, p) + Contribute(LimitExceeded, invoiceId, facts, p)
    + Contribute(AmountSpike, invoiceId, facts, p)
  }

  function SumScores(cs: seq<Contribution>): nat {
    if cs == [] then 0 else SumScores(cs[..|cs| - 1]) + cs[|cs| - 1].score
  }

  function LevelOf(total: nat, p: Snapshot): Level {
    if total >= p.highThreshold then HIGH else if total >= p.mediumThreshold then MEDIUM else LOW
  }

  function RequiredDecisions(level: Level): nat { if level == HIGH then 2 else 1 }

  function Evaluate(invoiceId: Text, facts: Facts, p: Snapshot): Evaluation {
    var cs := Contributions(invoiceId, facts, p);
    var total := SumScores(cs);
    var level := LevelOf(total, p);
    Evaluation(p.ruleVersion, facts, cs, total, level, EvidenceHash(invoiceId, p.ruleVersion, facts, cs, total, level))
  }

  // ---------------------------------------------------------------- the hashed evidence

  function NullableText(t: Option<Text>): Json { if t.None? then JNull else JString(t.value) }
  function Number(n: nat): Json { JNumber(NatText(n)) }

  function FactsJson(f: Facts): Json {
    JObject([
      Entry(Lit("bankAccountVersion"), if f.bankAccountVersion.None? then JNull
        else Number(f.bankAccountVersion.value)),
      Entry(Lit("exactDocumentDuplicate"), JBool(f.exactDocumentDuplicate)),
      Entry(Lit("duplicateInvoiceNumber"), JBool(f.duplicateInvoiceNumber)),
      Entry(Lit("totalAmount"), NullableText(f.totalAmount)),
      Entry(Lit("contractValueLimit"), NullableText(f.contractValueLimit)),
      Entry(Lit("priorInvoiceAverage"), NullableText(f.priorInvoiceAverage))])
  }

  function ContributionJson(c: Contribution): Json {
    JObject([
      Entry(Lit("rule"), JString(c.rule)), Entry(Lit("score"), Number(c.score)),
      Entry(Lit("explanation"), JString(c.explanation)), Entry(Lit("evidence"), JString(c.evidence))])
  }

  function ContributionsJson(cs: seq<Contribution>): seq<Json> {
    if cs == [] then [] else [ContributionJson(cs[0])] + ContributionsJson(cs[1..])
  }

  function LevelName(level: Level): Text {
    match level
    case LOW => Lit("LOW")
    case MEDIUM => Lit("MEDIUM")
    case HIGH => Lit("HIGH")
  }

  function EvidenceJson(
    invoiceId: Text, ruleVersion: nat, facts: Facts, cs: seq<Contribution>, total: nat, level: Level): Json
  {
    JObject([
      Entry(Lit("invoiceId"), JString(invoiceId)), Entry(Lit("ruleVersion"), Number(ruleVersion)),
      Entry(Lit("facts"), FactsJson(facts)), Entry(Lit("contributions"), JArray(ContributionsJson(cs))),
      Entry(Lit("totalScore"), Number(total)), Entry(Lit("level"), JString(LevelName(level)))])
  }

  function EvidenceHash(
    invoiceId: Text, ruleVersion: nat, facts: Facts, cs: seq<Contribution>, total: nat, level: Level): Digest
  {
    OfText(Canonical(EvidenceJson(invoiceId, ruleVersion, facts, cs, total, level), CodeUnitLe))
  }

  // ---------------------------------------------------------------- the service function

  lemma PushRule(rule: Rule, cs: seq<Contribution>, invoiceId: Text, facts: Facts, p: Snapshot)
    ensures Triggered(rule, facts) ==>
      cs + [Contribution(RuleName(rule), ScoreOf(rule, p), Explain(rule, facts), EvidencePath(rule, invoiceId))]
      == cs + Contribute(rule, invoiceId, facts, p)
    ensures !Triggered(rule, facts) ==> cs == cs + Contribute(rule, invoiceId, facts, p)
  {
  }

  /** The pushes of evaluateInvoiceRisk, branch by branch. */
  method PushContributions(invoiceId: Text, facts: Facts, policy: Snapshot)
    returns (contributions: seq<Contribution>)
    ensures contributions == Contributions(invoiceId, facts, policy)
  {
    hide Explain, RuleName, EvidencePath;
    contributions := [];
    PushRule(BankAccountChanged, contributions, invoiceId, facts, policy);
    if facts.bankAccountVersion.Some? && facts.bankAccountVersion.value > 1 {
      contributions := contributions + [Contribution(
        RuleName(BankAccountChanged), policy.changedBankAccountScore,
        Explain(BankAccountChanged, facts), EvidencePath(BankAccountChanged, invoiceId))];
    }
    PushRule(ExactDuplicate, contributions, invoiceId, facts, policy);
    if facts.exactDocumentDuplicate {
      contributions := contributions + [Contribution(
        RuleName(ExactDuplicate), policy.duplicateHashScore,
        Explain(ExactDuplicate, facts), EvidencePath(ExactDuplicate, invoiceId))];
    }
    PushRule(DuplicateNumber, contributions, invoiceId, facts, policy);
    if facts.duplicateInvoiceNumber {
      contributions := contributions + [Contribution(
        RuleName(DuplicateNumber), policy.duplicateInvoiceNumberScore,
        Explain(DuplicateNumber, facts), EvidencePath(DuplicateNumber, invoiceId))];
    }
    var total := Amount(facts.totalAmount);
    var contractLimit := Amount(facts.contractValueLimit);
    PushRule(LimitExceeded, contributions, invoiceId, facts, policy);
    if total.Some? && contractLimit.Some? && total.value > contractLimit.value {
      contributions := contributions + [Contribution(
        RuleName(LimitExceeded), policy.contractLimitScore,
        Explain(LimitExceeded, facts), EvidencePath(LimitExceeded, invoiceId))];
    }
    var priorAverage := Amount(facts.priorInvoiceAverage);
    PushRule(AmountSpike, contributions, invoiceId, facts, policy);
    if total.Some? && priorAverage.Some? && priorAverage.value > 0 && total.value >= priorAverage.value * 2 {
      contributions := contributions + [Contribution(
        RuleName(AmountSpike), policy.amountSpikeScore,
        Explain(AmountSpike, facts), EvidencePath(AmountSpike, invoiceId))];
    }
    assert [] + Contribute(BankAccountChanged, invoiceId, facts, policy)
           == Contribute(BankAccountChanged, invoiceId, facts, policy);
  }

  /** evaluateInvoiceRisk. */
  method EvaluateInvoiceRisk(invoiceId: Text, facts: Facts, policy: Snapshot) returns (r: Evaluation)
    ensures r == Evaluate(invoiceId, facts, policy)
  {
    var contributions := PushContributions(invoiceId, facts, policy);
    var totalScore := SumScores(contributions);
    var level := LevelOf(totalScore, policy);
    var evidenceHash := EvidenceHash(invoiceId, policy.ruleVersion, facts, contributions, totalScore, level);
    r := Evaluation(policy.ruleVersion, facts, contributions, totalScore, level, evidenceHash);
  }

  // ---------------------------------------------------------------- monotone score

  predicate ValidSnapshot(p: Snapshot) {
    p.ruleVersion > 0 && p.mediumThreshold > 0 && p.highThreshold > p.mediumThreshold
  }

  function Rank(level: Level): nat {
    match level
    case LOW => 0
    case MEDIUM => 1
    case HIGH => 2
  }

  function Weight(rule: Rule, facts: Facts, p: Snapshot): nat {
    if Triggered(rule, facts) then ScoreOf(rule, p) else 0
  }

  lemma {:induction false} SumScoresSplits(a: seq<Contribution>, b: seq<Contribution>)
    ensures SumScores(a + b) == SumScores(a) + SumScores(b)
  {
    if b == [] {
      assert a + b == a;
    } else {
      SumScoresSplits(a, b[..|b| - 1]);
      assert (a + b)[..|a + b| - 1] == a + b[..|b| - 1];
    }
  }

  lemma ContributeWeighs(rule: Rule, invoiceId: Text, facts: Facts, p: Snapshot)
    ensures SumScores(Contribute(rule, invoiceId, facts, p)) == Weight(rule, facts, p)
  {
  }

  /** The total is the sum of the scores of exactly the triggered rules. */
  lemma TotalIsWeights(invoiceId: Text, facts: Facts, p: Snapshot)
    ensures Evaluate(invoiceId, facts, p).totalScore
            == Weight(BankAccountChanged, facts, p) + Weight(ExactDuplicate, facts, p)
               + Weight(DuplicateNumber, facts, p) + Weight(LimitExceeded, facts, p) + Weight(AmountSpike, facts, p)
  {
    var a, b := Contribute(BankAccountChanged, invoiceId, facts, p), Contribute(ExactDuplicate, invoiceId, facts, p);
    var c, d := Contribute(DuplicateNumber, invoiceId, facts, p), Contribute(LimitExceeded, invoiceId, facts, p);
    var e := Contribute(AmountSpike, invoiceId, facts, p);
    SumScoresSplits(a, b);
    SumScoresSplits(a + b, c);
    SumScoresSplits(a + b + c, d);
    SumScoresSplits(a + b + c + d, e);
    ContributeWeighs(BankAccountChanged, invoiceId, facts, p);
    ContributeWeighs(ExactDuplicate, invoiceId, facts, p);
    ContributeWeighs(DuplicateNumber, invoiceId, facts, p);
    ContributeWeighs(LimitExceeded, invoiceId, facts, p);
    ContributeWeighs(AmountSpike, invoiceId, facts, p);
  }

  /** The level, on the total and the thresholds themselves: at either threshold the higher level applies. */
  lemma LevelIsExact(invoiceId: Text, facts: Facts, p: Snapshot)
    ensures var e := Evaluate(invoiceId, facts, p);
      && (e.level == HIGH <==> p.highThreshold <= e.totalScore)
      && (e.level == MEDIUM <==> p.mediumThreshold <= e.totalScore < p.highThreshold)
      && (e.level == LOW <==> e.totalScore < p.highThreshold && e.totalScore < p.mediumThreshold)
      && e.ruleVersion == p.ruleVersion && e.facts == facts
  {
    hide Contributions, EvidenceHash;
  }

  // Both texts are amounts, and the first relates to the second.
  predicate BothAmounts(a: Option<Text>, b: Option<Text>) {
    a.Some? && b.Some? && Decimal(a.value).Some? && Decimal(b.value).Some?
  }

  /** The total, condition by condition: a bank version above 1, a document or number that occurred before, a total
      above the contract limit, a total at least twice a positive average. */
  lemma TotalIsExact(invoiceId: Text, f: Facts, p: Snapshot)
    ensures Evaluate(invoiceId, f, p).totalScore
         == (if f.bankAccountVersion.Some? && f.bankAccountVersion.value >= 2 then p.changedBankAccountScore else 0)
            + (if f.exactDocumentDuplicate then p.duplicateHashScore else 0)
            + (if f.duplicateInvoiceNumber then p.duplicateInvoiceNumberScore else 0)
            + (if BothAmounts(f.totalAmount, f.contractValueLimit)
                  && Decimal(f.totalAmount.value).value > Decimal(f.contractValueLimit.value).value
               then p.contractLimitScore else 0)
            + (if BothAmounts(f.totalAmount, f.priorInvoiceAverage)
                  && Decimal(f.priorInvoiceAverage.value).value >= 1
                  && Decimal(f.totalAmount.value).value >= 2 * Decimal(f.priorInvoiceAverage.value).value
               then p.amountSpikeScore else 0)
  {
    TotalIsWeights(invoiceId, f, p);
    hide Evaluate, Decimal;
  }

  lemma NamesDiffer(r: Rule, q: Rule)
    ensures RuleName(r) == RuleName(q) ==> r == q
  {
    assert |RuleName(BankAccountChanged)| == 27 && |RuleName(LimitExceeded)| == 29 && |RuleName(AmountSpike)| == 12;
    assert |RuleName(ExactDuplicate)| == 24 && RuleName(ExactDuplicate)[0] == 69;
    assert |RuleName(DuplicateNumber)| == 24 && RuleName(DuplicateNumber)[0] == 68;
  }

  // The evaluation names the rule, with this score.
  predicate Says(cs: seq<Contribution>, name: Text, score: nat) {
    exists k :: 0 <= k < |cs| && cs[k].rule == name && cs[k].score == score
  }

  lemma SaysIfTriggered(rule: Rule, invoiceId: Text, f: Facts, p: Snapshot)
    ensures Says(Contributions(invoiceId, f, p), RuleName(rule), ScoreOf(rule, p)) <==> Triggered(rule, f)
  {
    NamesDiffer(rule, BankAccountChanged);
    NamesDiffer(rule, ExactDuplicate);
    NamesDiffer(rule, DuplicateNumber);
    NamesDiffer(rule, LimitExceeded);
    NamesDiffer(rule, AmountSpike);
    hide Explain, RuleName, EvidencePath, Triggered, ScoreOf;
    var cs := Contributions(invoiceId, f, p);
    if Triggered(rule, f) {
      var before := match rule
        case BankAccountChanged => []
        case ExactDuplicate => Contribute(BankAccountChanged, invoiceId, f, p)
        case DuplicateNumber =>
          Contribute(BankAccountChanged, invoiceId, f, p) + Contribute(ExactDuplicate, invoiceId, f, p)
        case LimitExceeded =>
          Contribute(BankAccountChanged, invoiceId, f, p) + Contribute(ExactDuplicate, invoiceId, f, p)
          + Contribute(DuplicateNumber, invoiceId, f, p)
        case AmountSpike =>
          Contribute(BankAccountChanged, invoiceId, f, p) + Contribute(ExactDuplicate, invoiceId, f, p)
          + Contribute(DuplicateNumber, invoiceId, f, p) + Contribute(LimitExceeded, invoiceId, f, p);
      assert cs[|before|].rule == RuleName(rule) && cs[|before|].score == ScoreOf(rule, p);
    }
  }

  /** Each rule is named, with its own score of the policy, exactly under its condition. */
  lemma RulesSpeakExactly(invoiceId: Text, f: Facts, p: Snapshot)
    ensures var cs := Evaluate(invoiceId, f, p).contributions;
      && (Says(cs, Lit("VENDOR_BANK_ACCOUNT_CHANGED"), p.changedBankAccountScore)
          <==> f.bankAccountVersion.Some? && f.bankAccountVersion.value >= 2)
      && (Says(cs, Lit("EXACT_DOCUMENT_DUPLICATE"), p.duplicateHashScore) <==> f.exactDocumentDuplicate)
      && (Says(cs, Lit("DUPLICATE_INVOICE_NUMBER"), p.duplicateInvoiceNumberScore) <==> f.duplicateInvoiceNumber)
      && (Says(cs, Lit("CONTRACT_VALUE_LIMIT_EXCEEDED"), p.contractLimitScore)
          <==> BothAmounts(f.totalAmount, f.contractValueLimit)
               && Decimal(f.totalAmount.value).value > Decimal(f.contractValueLimit.value).value)
      && (Says(cs, Lit("AMOUNT_SPIKE"), p.amountSpikeScore)
          <==> BothAmounts(f.totalAmount, f.priorInvoiceAverage)
               && Decimal(f.priorInvoiceAverage.value).value >= 1
               && Decimal(f.totalAmount.value).value >= 2 * Decimal(f.priorInvoiceAverage.value).value)
  {
    SaysIfTriggered(BankAccountChanged, invoiceId, f, p);
    SaysIfTriggered(ExactDuplicate, invoiceId, f, p);
    SaysIfTriggered(DuplicateNumber, invoiceId, f, p);
    SaysIfTriggered(LimitExceeded, invoiceId, f, p);
    SaysIfTriggered(AmountSpike, invoiceId, f, p);
    hide Contributions, EvidenceHash, Says, Decimal;
  }

  /** More triggered rules never lower the score, the level or the number of decisions. */
  lemma ScoreIsMonotone(idF: Text, f: Facts, idG: Text, g: Facts, p: Snapshot)
    requires ValidSnapshot(p)
    requires forall rule :: Triggered(rule, f) ==> Triggered(rule, g)
    ensures Evaluate(idF, f, p).totalScore <= Evaluate(idG, g, p).totalScore
    ensures Rank(Evaluate(idF, f, p).level) <= Rank(Evaluate(idG, g, p).level)
    ensures RequiredDecisions(Evaluate(idF, f, p).level) <= RequiredDecisions(Evaluate(idG, g, p).level)
  {
    hide Explain, RuleName, EvidencePath, EvidenceHash;
    TotalIsWeights(idF, f, p);
    TotalIsWeights(idG, g, p);
    WeightGrows(BankAccountChanged, f, g, p);
    WeightGrows(ExactDuplicate, f, g, p);
    WeightGrows(DuplicateNumber, f, g, p);
    WeightGrows(LimitExceeded, f, g, p);
    WeightGrows(AmountSpike, f, g, p);
    LevelGrows(Evaluate(idF, f, p).totalScore, Evaluate(idG, g, p).totalScore, p);
  }

  lemma WeightGrows(rule: Rule, f: Facts, g: Facts, p: Snapshot)
    requires Triggered(rule, f) ==> Triggered(rule, g)
    ensures Weight(rule, f, p) <= Weight(rule, g, p)
  {
  }

  lemma LevelGrows(t: nat, u: nat, p: Snapshot)
    requires ValidSnapshot(p) && t <= u
    ensures Rank(LevelOf(t, p)) <= Rank(LevelOf(u, p))
    ensures RequiredDecisions(LevelOf(t, p)) <= RequiredDecisions(LevelOf(u, p))
  {
  }

  // ---------------------------------------------------------------- the prior average

  function Sum(values: seq<nat>): nat {
    if values == [] then 0 else values[0] + Sum(values[1..])
  }

  // The mean, in cents, rounded half up as toFixed(2) does.
  function AverageCents(values: seq<nat>): nat
    requires values != []
  {
    (2 * Sum(values) + |values|) / (2 * |values|)
  }

  function Average(values: seq<nat>): Option<Text> {
    if values == [] then None else Some(FixedText(AverageCents(values)))
  }

  lemma {:induction false} SumBetween(values: seq<nat>, low: nat, high: nat)
    requires forall i :: 0 <= i < |values| ==> low <= values[i] <= high
    ensures low * |values| <= Sum(values) <= high * |values|
  {
    if values != [] {
      SumBetween(values[1..], low, high);
      assert low * |values| == low + low * |values[1..]|;
      assert high * |values| == high + high * |values[1..]|;
    }
  }

  lemma MulMonotone(n: nat, a: int, b: int)
    ensures a <= b ==> n * a <= n * b
  {
  }

  lemma RoundedBetween(sum: nat, n: nat, low: nat, high: nat)
    requires n > 0 && low * n <= sum <= high * n
    ensures low <= (2 * sum + n) / (2 * n) <= high
  {
    var q := (2 * sum + n) / (2 * n);
    assert 2 * (n * q) <= 2 * sum + n < 2 * (n * q) + 2 * n by {
      assert 2 * n * q == 2 * (n * q);
    }
    MulMonotone(n, high + 1, q);
    MulMonotone(n, q + 1, low);
    assert n * (high + 1) == high * n + n;
    assert n * (q + 1) == n * q + n;
    assert n * low == low * n;
  }

  /** Rounding never takes the average outside the range of the prior totals. */
  lemma AverageBetween(values: seq<nat>, low: nat, high: nat)
    requires values != [] && forall i :: 0 <= i < |values| ==> low <= values[i] <= high
    ensures Average(values).Some? && low <= AverageCents(values) <= high
    ensures Amount(Average(values)) == Some(AverageCents(values))
  {
    SumBetween(values, low, high);
    RoundedBetween(Sum(values), |values|, low, high);
    DecimalRoundTrip(AverageCents(values));
  }

  lemma RoundsToZero(sum: nat, n: nat)
    requires n > 0
    ensures (2 * sum + n) / (2 * n) == 0 <==> 2 * sum < n
  {
    QuotientIsZero(2 * sum + n, 2 * n);
  }

  lemma QuotientIsZero(a: nat, b: nat)
    requires b > 0
    ensures a / b == 0 <==> a < b
  {
    assert a == b * (a / b) + a % b;
    MulMonotone(b, 1, a / b);
  }

  /** A total at least twice every prior total is a spike exactly when the average does not round to 0.00. */
  lemma SpikeIffAverageNotZero(facts: Facts, total: nat, values: seq<nat>)
    requires values != [] && Amount(facts.totalAmount) == Some(total)
    requires facts.priorInvoiceAverage == Average(values)
    requires forall i :: 0 <= i < |values| ==> 2 * values[i] <= total
    ensures Triggered(AmountSpike, facts) <==> 2 * Sum(values) >= |values|
  {
    forall i | 0 <= i < |values| ensures 0 <= values[i] <= total / 2 { assert 2 * values[i] <= total; }
    AverageBetween(values, 0, total / 2);
    SpikeMeans(facts, total, AverageCents(values));
    AverageIsZero(values);
  }

  lemma AverageIsZero(values: seq<nat>)
    requires values != []
    ensures AverageCents(values) == 0 <==> 2 * Sum(values) < |values|
  {
    RoundsToZero(Sum(values), |values|);
  }

  lemma SpikeMeans(facts: Facts, total: nat, average: nat)
    requires Amount(facts.totalAmount) == Some(total) && Amount(facts.priorInvoiceAverage) == Some(average)
    ensures Triggered(AmountSpike, facts) <==> average > 0 && total >= 2 * average
  {
  }

  /** A total below twice every prior total is never a spike. */
  lemma NoSpikeBelowTwice(facts: Facts, total: nat, values: seq<nat>)
    requires values != [] && Amount(facts.totalAmount) == Some(total)
    requires facts.priorInvoiceAverage == Average(values)
    requires forall i :: 0 <= i < |values| ==> total < 2 * values[i]
    ensures !Triggered(AmountSpike, facts)
  {
    var high := Sum(values);
    SumCovers(values);
    AverageBetween(values, total / 2 + 1, high);
    SpikeMeans(facts, total, AverageCents(values));
  }

  lemma {:induction false} SumCovers(values: seq<nat>)
    ensures forall i :: 0 <= i < |values| ==> values[i] <= Sum(values)
  {
    if values != [] {
      SumCovers(values[1..]);
      forall i | 0 <= i < |values| ensures values[i] <= Sum(values) {
        if i > 0 { assert values[i] == values[1..][i - 1]; }
      }
    }
  }

  /** Twice the largest prior total, and still no spike: 0.00, 0.00 and 0.01 average to 0.00. */
  lemma TwiceTheLargestIsNotEnough(facts: Facts)
    requires facts.totalAmount == Some(DecimalText(2)) && facts.priorInvoiceAverage == Average([0, 0, 1])
    ensures Amount(facts.totalAmount) == Some(2) && !Triggered(AmountSpike, facts)
  {
    DecimalRoundTrip(2);
    var values: seq<nat> := [0, 0, 1];
    assert Sum(values) == 1 by {
      assert values[1..] == [0, 1] && values[1..][1..] == [1] && values[1..][1..][1..] == [];
    }
    SpikeIffAverageNotZero(facts, 2, values);
  }

  // ---------------------------------------------------------------- the hash binds the evidence

  lemma NumbersDiffer(m: nat, n: nat)
    requires Number(m) == Number(n)
    ensures m == n
  {
    NatTextRoundTrip(m);
    NatTextRoundTrip(n);
  }

  lemma NumberIsWellFormed(n: nat)
    ensures WellFormed(Number(n))
  {
  }

  lemma FactsWellFormed(f: Facts)
    ensures WellFormed(FactsJson(f)) && |FactsJson(f).entries| == 6
  {
    var es := FactsJson(f).entries;
    if f.bankAccountVersion.Some? { NumberIsWellFormed(f.bankAccountVersion.value); }
    assert es[0].key[0] == 98 && es[1].key[0] == 101 && es[2].key[0] == 100;
    assert es[3].key[0] == 116 && es[4].key[0] == 99 && es[5].key[0] == 112;
  }

  lemma SameFactKeys(f: Facts, g: Facts, i: nat)
    requires i < 6
    ensures |FactsJson(f).entries| == 6 && |FactsJson(g).entries| == 6
    ensures FactsJson(f).entries[i].key == FactsJson(g).entries[i].key
  {
  }

  lemma SameFactValues(f: Facts, g: Facts, i: nat)
    requires Meaning(FactsJson(f)) == Meaning(FactsJson(g)) && i < 6
    ensures |FactsJson(f).entries| == 6 && |FactsJson(g).entries| == 6
    ensures Meaning(FactsJson(f).entries[i].value) == Meaning(FactsJson(g).entries[i].value)
  {
    FactsWellFormed(f);
    FactsWellFormed(g);
    SameFactKeys(f, g, i);
    hide FactsJson, Meaning;
    SameFieldValues(FactsJson(f).entries, FactsJson(g).entries, i);
  }

  // The values of the six facts, whatever their keys.
  lemma FactValues(f: Facts)
    ensures var es := FactsJson(f).entries;
      && |es| == 6
      && es[0].value == (if f.bankAccountVersion.None? then JNull else Number(f.bankAccountVersion.value))
      && es[1].value == JBool(f.exactDocumentDuplicate) && es[2].value == JBool(f.duplicateInvoiceNumber)
      && es[3].value == NullableText(f.totalAmount) && es[4].value == NullableText(f.contractValueLimit)
      && es[5].value == NullableText(f.priorInvoiceAverage)
  {
  }

  lemma SameFacts(f: Facts, g: Facts)
    requires Meaning(FactsJson(f)) == Meaning(FactsJson(g))
    ensures f == g
  {
    FactValues(f);
    FactValues(g);
    hide FactsJson;
    SameFactValues(f, g, 0);
    SameFactValues(f, g, 1);
    SameFactValues(f, g, 2);
    SameFactValues(f, g, 3);
    SameFactValues(f, g, 4);
    SameFactValues(f, g, 5);
    if f.bankAccountVersion.Some? && g.bankAccountVersion.Some? {
      NumbersDiffer(f.bankAccountVersion.value, g.bankAccountVersion.value);
    }
  }

  lemma ContributionWellFormed(c: Contribution)
    ensures WellFormed(ContributionJson(c)) && |ContributionJson(c).entries| == 4
  {
  }

  lemma SameContribution(c: Contribution, d: Contribution)
    requires Meaning(ContributionJson(c)) == Meaning(ContributionJson(d))
    ensures c == d
  {
    ContributionWellFormed(c);
    ContributionWellFormed(d);
    var es, fs := ContributionJson(c).entries, ContributionJson(d).entries;
    SameFieldValues(es, fs, 0);
    SameFieldValues(es, fs, 1);
    SameFieldValues(es, fs, 2);
    SameFieldValues(es, fs, 3);
    NumbersDiffer(c.score, d.score);
  }

  lemma {:induction false} SameContributions(cs: seq<Contribution>, ds: seq<Contribution>)
    requires MeaningOfItems(ContributionsJson(cs)) == MeaningOfItems(ContributionsJson(ds))
    ensures cs == ds
  {
    var m, n := MeaningOfItems(ContributionsJson(cs)), MeaningOfItems(ContributionsJson(ds));
    if cs != [] && ds != [] {
      assert ContributionsJson(cs)[1..] == ContributionsJson(cs[1..]);
      assert ContributionsJson(ds)[1..] == ContributionsJson(ds[1..]);
      assert m[0] == n[0] && m[1..] == n[1..];
      SameContribution(cs[0], ds[0]);
      SameContributions(cs[1..], ds[1..]);
      assert cs == [cs[0]] + cs[1..] && ds == [ds[0]] + ds[1..];
    }
  }

  lemma {:induction false} ContributionsWellFormed(cs: seq<Contribution>)
    ensures forall i :: 0 <= i < |ContributionsJson(cs)| ==> WellFormed(ContributionsJson(cs)[i])
  {
    if cs != [] {
      ContributionWellFormed(cs[0]);
      ContributionsWellFormed(cs[1..]);
    }
  }

  lemma EvidenceWellFormed(id: Text, v: nat, f: Facts, cs: seq<Contribution>, total: nat, level: Level)
    ensures WellFormed(EvidenceJson(id, v, f, cs, total, level))
    ensures |EvidenceJson(id, v, f, cs, total, level).entries| == 6
  {
    var es := EvidenceJson(id, v, f, cs, total, level).entries;
    NumberIsWellFormed(v);
    NumberIsWellFormed(total);
    FactsWellFormed(f);
    ContributionsWellFormed(cs);
    assert es[0].key[0] == 105 && es[1].key[0] == 114 && es[2].key[0] == 102;
    assert es[3].key[0] == 99 && es[4].key[0] == 116 && es[5].key[0] == 108;
  }

  lemma SameLevel(k: Level, l: Level)
    requires LevelName(k) == LevelName(l)
    ensures k == l
  {
  }

  /** Equal evidence hashes mean equal evidence: invoice, rule version, facts, contributions, total and level. */
  lemma HashBindsEvidence(id: Text, f: Facts, p: Snapshot, id': Text, f': Facts, p': Snapshot)
    requires Evaluate(id, f, p).evidenceHash == Evaluate(id', f', p').evidenceHash
    ensures id == id' && Evaluate(id, f, p) == Evaluate(id', f', p')
  {
    var e, e' := Evaluate(id, f, p), Evaluate(id', f', p');
    var j := EvidenceJson(id, p.ruleVersion, f, e.contributions, e.totalScore, e.level);
    var j' := EvidenceJson(id', p'.ruleVersion, f', e'.contributions, e'.totalScore, e'.level);
    EvidenceWellFormed(id, p.ruleVersion, f, e.contributions, e.totalScore, e.level);
    EvidenceWellFormed(id', p'.ruleVersion, f', e'.contributions, e'.totalScore, e'.level);
    CanonicalIsUnambiguous(j, j', CodeUnitLe);
    SameEvidence(id, p.ruleVersion, f, e.contributions, e.totalScore, e.level,
                 id', p'.ruleVersion, f', e'.contributions, e'.totalScore, e'.level);
  }

  lemma SameEvidence(id: Text, v: nat, f: Facts, cs: seq<Contribution>, total: nat, level: Level,
                     id': Text, v': nat, f': Facts, cs': seq<Contribution>, total': nat, level': Level)
    requires Meaning(EvidenceJson(id, v, f, cs, total, level))
          == Meaning(EvidenceJson(id', v', f', cs', total', level'))
    ensures id == id' && v == v' && f == f' && cs == cs' && total == total' && level == level'
  {
    var es, fs := EvidenceJson(id, v, f, cs, total, level).entries,
      EvidenceJson(id', v', f', cs', total', level').entries;
    EvidenceWellFormed(id, v, f, cs, total, level);
    EvidenceWellFormed(id', v', f', cs', total', level');
    SameFieldValues(es, fs, 0);
    SameFieldValues(es, fs, 1);
    SameFieldValues(es, fs, 2);
    SameFieldValues(es, fs, 3);
    SameFieldValues(es, fs, 4);
    SameFieldValues(es, fs, 5);
    NumbersDiffer(v, v');
    NumbersDiffer(total, total');
    SameFacts(f, f');
    SameContributions(cs, cs');
    SameLevel(level, level');
  }
}
