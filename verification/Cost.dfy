/** The cost of one model call from the rates in force: which rates apply, when the cost is
    refused, and how close the rounded amounts are to the exact ones. */
module Cost {
  import opened Decimal38

  datatype Option<+T> = None | Some(value: T)

  datatype TokenClass = INPUT | CACHED_INPUT | REASONING | OUTPUT

  const CLASSES: seq<TokenClass> := [INPUT, CACHED_INPUT, REASONING, OUTPUT]

  datatype Error =
    | ActualUsageRequired | BlankIdentifier | BlankCostId | BadRateCard
    | NoRate(missing: TokenClass) | ManyRates(overlapping: TokenClass) | NotShared

  datatype Outcome<+T> = Ok(value: T) | Refused(error: Error)

  /** Actual token counts. */
  datatype Usage = Usage(input: nat, cachedInput: nat, reasoning: nat, output: nat)
  {
    function Count(c: TokenClass): nat {
      match c
      case INPUT => input
      case CACHED_INPUT => cachedInput
      case REASONING => reasoning
      case OUTPUT => output
    }

    predicate Valid() {
      exists c :: Count(c) > 0
    }
  }

  /** Counts as they come from a provider: checked before they become a usage. */
  function MakeUsage(input: int, cachedInput: int, reasoning: int, output: int): (r: Outcome<Usage>)
    ensures r.Ok? <==>
      input >= 0 && cachedInput >= 0 && reasoning >= 0 && output >= 0 && input + cachedInput + reasoning + output > 0
    ensures r.Ok? ==> r.value.Valid()
  {
    if input < 0 || cachedInput < 0 || reasoning < 0 || output < 0 then Refused(ActualUsageRequired)
    else if input == 0 && cachedInput == 0 && reasoning == 0 && output == 0 then Refused(ActualUsageRequired)
    else
      var usage := Usage(input, cachedInput, reasoning, output);
      assert usage.Count(INPUT) > 0 || usage.Count(CACHED_INPUT) > 0 || usage.Count(REASONING) > 0 ||
        usage.Count(OUTPUT) > 0;
      Ok(usage)
  }

  datatype Rate = Rate(id: string, version: string, tokenClass: TokenClass, quantity: real, price: real,
                       currency: string,
                       conversion: real, rounding: string)
  {
    predicate Valid() {
      quantity > 0.0 && price >= 0.0 && conversion > 0.0
    }
  }

  /** A row of the rate table; texts are already trimmed, a number that is missing or not
      finite is none. */
  datatype RateRow = RateRow(id: string, version: string, tokenClass: Option<TokenClass>, quantity: Option<real>,
                             price: Option<real>, currency: string, conversion: Option<real>, conversionGiven: bool,
                             source: string, rounding: string)

  function FromRow(row: RateRow): (r: Outcome<Rate>)
    ensures r.Ok? ==> r.value.Valid() && r.value.version == row.version && Some(r.value.tokenClass) == row.tokenClass
    ensures r.Ok? ==>
      Some(r.value.quantity) == row.quantity && Some(r.value.price) == row.price && r.value.currency == row.currency
    ensures r.Ok? ==> if row.conversionGiven then Some(r.value.conversion) == row.conversion
                      else r.value.currency == "USD" && r.value.conversion == 1.0
    ensures r.Refused? ==> r.error == BadRateCard
  {
    if row.tokenClass.None? || row.id == "" || row.version == "" || row.currency == "" || row.source == "" ||
      row.rounding == ""
    then Refused(BadRateCard)
    else if row.quantity.None? || row.price.None? || row.quantity.value <= 0.0 || row.price.value < 0.0
      then Refused(BadRateCard)
    else if !row.conversionGiven then
      if row.currency == "USD"
      then Ok(Rate(row.id, row.version, row.tokenClass.value, row.quantity.value, row.price.value, row.currency, 1.0,
        row.rounding))
      else Refused(BadRateCard)
    else if row.conversion.None? || row.conversion.value <= 0.0 then Refused(BadRateCard)
    else
      Ok(Rate(row.id, row.version, row.tokenClass.value, row.quantity.value, row.price.value, row.currency,
        row.conversion.value, row.rounding))
  }

  // ------------------------------------------------------------------ which rates apply

  predicate Applies(rate: Rate, version: string, c: TokenClass) {
    rate.version == version && rate.tokenClass == c
  }

  function Matching(rates: seq<Rate>, version: string, c: TokenClass): seq<Rate>
    decreases |rates|
  {
    if rates == [] then []
    else
      var last := rates[|rates| - 1];
      Matching(rates[..|rates| - 1], version, c) + if Applies(last, version, c) then [last] else []
  }

  /** The one rate of each used class, or the first class without exactly one. */
  function Select(rates: seq<Rate>, version: string, usage: Usage, n: nat): Outcome<map<TokenClass, Rate>>
    requires n <= |CLASSES|
  {
    if n == 0 then Ok(map[])
    else
      var before := Select(rates, version, usage, n - 1);
      var c := CLASSES[n - 1];
      if before.Refused? || usage.Count(c) == 0 then before
      else
        var matches := Matching(rates, version, c);
        if matches == [] then Refused(NoRate(c))
        else if |matches| != 1 then Refused(ManyRates(c))
        else Ok(before.value[c := matches[0]])
  }

  predicate Shared(selected: map<TokenClass, Rate>) {
    && selected != map[]
    && forall c, d :: c in selected && d in selected ==>
         && selected[c].currency == selected[d].currency && selected[c].conversion == selected[d].conversion
         && selected[c].rounding == selected[d].rounding
  }

  datatype ModelCost = ModelCost(amounts: map<TokenClass, real>, amountCurrency: real, currency: string,
                                 amountUsd: real,
                                 credits: Option<real>)

  function AmountOf(usage: Usage, selected: map<TokenClass, Rate>, c: TokenClass, round: real -> real): real {
    if c in selected && selected[c].quantity > 0.0
      then RateAmount(usage.Count(c), selected[c].quantity, selected[c].price, round)
    else 0.0
  }

  function RateAmount(count: nat, quantity: real, price: real, round: real -> real): real
    requires quantity > 0.0
  {
    round(Times(round(Over(count as real, quantity)), price))
  }

  function ExactRateAmount(count: nat, quantity: real, price: real): real
    requires quantity > 0.0
  {
    Times(Over(count as real, quantity), price)
  }

  /** The amounts added up in the order of the classes, each addition rounded. */
  function Total(usage: Usage, selected: map<TokenClass, Rate>, n: nat, round: real -> real): real
    requires n <= |CLASSES|
  {
    if n == 0 then 0.0
      else round(Total(usage, selected, n - 1, round) + AmountOf(usage, selected, CLASSES[n - 1], round))
  }

  function Amounts(usage: Usage, selected: map<TokenClass, Rate>, round: real -> real): map<TokenClass, real> {
    map[INPUT := AmountOf(usage, selected, INPUT, round),
      CACHED_INPUT := AmountOf(usage, selected, CACHED_INPUT, round),
        REASONING := AmountOf(usage, selected, REASONING, round), OUTPUT := AmountOf(usage, selected, OUTPUT, round)]
  }

  function Price(usage: Usage, selected: map<TokenClass, Rate>, currency: string, conversion: real,
                 round: real -> real): ModelCost {
    Priced(Amounts(usage, selected, round), Total(usage, selected, |CLASSES|, round), currency, conversion, round)
  }

  function Priced(amounts: map<TokenClass, real>, total: real, currency: string, conversion: real,
                  round: real -> real): ModelCost {
    ModelCost(amounts, total, currency, round(Times(total, conversion)),
              if currency in {"CREDIT", "CREDITS"} then Some(total) else None)
  }

  /** The cost of a call: exactly what every order of the same relevant rates gives. */
  ghost predicate Costs(rates: seq<Rate>, version: string, usage: Usage, round: real -> real, r: Outcome<ModelCost>) {
    match Select(rates, version, usage, |CLASSES|)
    case Refused(error) => r == Refused(error)
    case Ok(selected) =>
      if Shared(selected)
        then forall c :: c in selected ==>
          r == Ok(Price(usage, selected, selected[c].currency, selected[c].conversion, round))
      else r == Refused(NotShared)
  }

  // ------------------------------------------------------------------ the computation

  /** A cost and the id it is stored under. */
  datatype Calculated = Calculated(costId: string, cost: ModelCost)

  /** An id that was given, or the one made of the call and the version. */
  function StableId(costId: string, callId: string, version: string): string {
    if costId != "" then costId else "model-cost:" + callId + ":" + version
  }

  /** Nothing but white space, whatever characters that is. */
  predicate Blank(s: string, white: char -> bool) {
    forall i :: 0 <= i < |s| ==> white(s[i])
  }

  /** A cost is refused in the end if the id given for it is blank. */
  function Identified(cost: Outcome<ModelCost>, id: string, white: char -> bool): Outcome<Calculated> {
    match cost
    case Refused(error) => Refused(error)
    case Ok(value) => if Blank(id, white) then Refused(BlankCostId) else Ok(Calculated(id, value))
  }

  method CalculateFromRates(actual: bool, identified: bool, callId: string, costId: string, white: char -> bool,
                            rates: seq<Rate>, version: string, usage: Usage, round: real -> real)
      returns (r: Outcome<Calculated>)
    requires !white('m')
    ensures !actual ==> r == Refused(ActualUsageRequired)
    ensures actual && !identified ==> r == Refused(BlankIdentifier)
    ensures actual && identified ==>
      exists cost ::
        Costs(rates, version, usage, round, cost) && r == Identified(cost, StableId(costId, callId, version), white)
    ensures r == Refused(BlankCostId) ==> costId != "" && Blank(costId, white)
  {
    if !actual { return Refused(ActualUsageRequired); }
    if !identified { return Refused(BlankIdentifier); }
    var cost := Compute(rates, version, usage, round);
    var id := StableId(costId, callId, version);
    assert costId == "" ==> id[0] == 'm';
    r := Identified(cost, id, white);
  }

  method Compute(rates: seq<Rate>, version: string, usage: Usage, round: real -> real) returns (r: Outcome<ModelCost>)
    ensures Costs(rates, version, usage, round, r)
    ensures r != Refused(BlankCostId)
  {
    var byClass := GroupRates(rates, version);
    var chosen := SelectRates(rates, version, usage, byClass);
    if chosen.Refused? { return Refused(chosen.error); }
    var selected := chosen.value;
    if !Shared(selected) { return Refused(NotShared); }
    var cost := AddUp(usage, selected, round);
    r := Ok(cost);
  }

  method AddUp(usage: Usage, selected: map<TokenClass, Rate>, round: real -> real) returns (cost: ModelCost)
    requires Shared(selected)
    ensures forall c :: c in selected ==>
      cost == Price(usage, selected, selected[c].currency, selected[c].conversion, round)
  {
    var total := 0.0;
    for n := 0 to |CLASSES|
      invariant total == Total(usage, selected, n, round)
    {
      total := round(total + AmountOf(usage, selected, CLASSES[n], round));
    }
    var c :| c in selected;
    var currency, conversion := selected[c].currency, selected[c].conversion;
    cost := Priced(Amounts(usage, selected, round), total, currency, conversion, round);
    forall d | d in selected ensures selected[d].currency == currency && selected[d].conversion == conversion {
    }
  }

  function Listed(byClass: map<TokenClass, seq<Rate>>, c: TokenClass): seq<Rate> {
    if c in byClass then byClass[c] else []
  }

  lemma {:induction false} MatchingNext(rates: seq<Rate>, version: string, i: nat, c: TokenClass)
    requires i < |rates|
    ensures Matching(rates[..i + 1], version, c)
         == Matching(rates[..i], version, c) + if Applies(rates[i], version, c) then [rates[i]] else []
  {
    assert rates[..i + 1][..i] == rates[..i];
  }

  method GroupRates(rates: seq<Rate>, version: string) returns (byClass: map<TokenClass, seq<Rate>>)
    ensures forall c :: Listed(byClass, c) == Matching(rates, version, c)
  {
    byClass := map[];
    for i := 0 to |rates|
      invariant forall c :: Listed(byClass, c) == Matching(rates[..i], version, c)
    {
      forall c { MatchingNext(rates, version, i, c); }
      assert forall c :: c != rates[i].tokenClass ==>
        Matching(rates[..i + 1], version, c) == Matching(rates[..i], version, c);
      var rate := rates[i];
      if rate.version == version { byClass := byClass[rate.tokenClass := Listed(byClass, rate.tokenClass) + [rate]]; }
    }
    assert rates[..|rates|] == rates;
  }

  method SelectRates(rates: seq<Rate>, version: string, usage: Usage, byClass: map<TokenClass, seq<Rate>>)
      returns (r: Outcome<map<TokenClass, Rate>>)
    requires forall c :: Listed(byClass, c) == Matching(rates, version, c)
    ensures r == Select(rates, version, usage, |CLASSES|)
    ensures r.Refused? ==> r.error.NoRate? || r.error.ManyRates?
  {
    var selected: map<TokenClass, Rate> := map[];
    for n := 0 to |CLASSES|
      invariant Select(rates, version, usage, n) == Ok(selected)
    {
      var c := CLASSES[n];
      if usage.Count(c) == 0 { continue; }
      var matches := Listed(byClass, c);
      if matches == [] {
        RefusalStays(rates, version, usage, n + 1, |CLASSES|);
        return Refused(NoRate(c));
      }
      if |matches| != 1 {
        RefusalStays(rates, version, usage, n + 1, |CLASSES|);
        return Refused(ManyRates(c));
      }
      selected := selected[c := matches[0]];
    }
    r := Ok(selected);
  }

  lemma {:induction false} RefusalStays(rates: seq<Rate>, version: string, usage: Usage, n: nat, m: nat)
    requires n <= m <= |CLASSES| && Select(rates, version, usage, n).Refused?
    ensures Select(rates, version, usage, m) == Select(rates, version, usage, n)
    decreases m
  {
    if n < m { RefusalStays(rates, version, usage, n, m - 1); }
  }

  // ------------------------------------------------------------------ invariance

  /** The rates that can matter: of this version and for a class that was used. */
  predicate Relevant(rate: Rate, version: string, usage: Usage) {
    rate.version == version && usage.Count(rate.tokenClass) > 0
  }

  lemma {:induction false} MatchingCounts(rates: seq<Rate>, version: string, c: TokenClass, rate: Rate)
    ensures multiset(Matching(rates, version, c))[rate] == if Applies(rate, version, c) then multiset(rates)[rate]
      else 0
    decreases |rates|
  {
    if rates != [] {
      var n := |rates| - 1;
      assert rates == rates[..n] + [rates[n]];
      MatchingCounts(rates[..n], version, c, rate);
    }
  }

  /** Both lists hold every relevant rate equally often: one is a permutation of the other
      but for rates of other versions and of unused classes. */
  ghost predicate SameRelevant(rates: seq<Rate>, others: seq<Rate>, version: string, usage: Usage) {
    forall rate :: Relevant(rate, version, usage) ==> multiset(rates)[rate] == multiset(others)[rate]
  }

  lemma SameMatching(rates: seq<Rate>, others: seq<Rate>, version: string, usage: Usage, c: TokenClass)
    requires SameRelevant(rates, others, version, usage) && usage.Count(c) > 0
    ensures |Matching(rates, version, c)| == |Matching(others, version, c)|
    ensures |Matching(rates, version, c)| == 1 ==> Matching(rates, version, c) == Matching(others, version, c)
  {
    var m, k := Matching(rates, version, c), Matching(others, version, c);
    forall rate ensures multiset(m)[rate] == multiset(k)[rate] {
      MatchingCounts(rates, version, c, rate);
      MatchingCounts(others, version, c, rate);
    }
    SameBag(m, k);
  }

  lemma SameBag(m: seq<Rate>, k: seq<Rate>)
    requires forall rate :: multiset(m)[rate] == multiset(k)[rate]
    ensures |m| == |k| && (|m| == 1 ==> m == k)
  {
    assert multiset(m) == multiset(k);
    assert |multiset(m)| == |m| && |multiset(k)| == |k|;
    if |m| == 1 {
      assert m[0] in multiset(k);
    }
  }

  lemma {:induction false} SameSelection(rates: seq<Rate>, others: seq<Rate>, version: string, usage: Usage, n: nat)
    requires n <= |CLASSES| && SameRelevant(rates, others, version, usage)
    ensures Select(rates, version, usage, n) == Select(others, version, usage, n)
  {
    if n > 0 {
      SameSelection(rates, others, version, usage, n - 1);
      if usage.Count(CLASSES[n - 1]) > 0 { SameMatching(rates, others, version, usage, CLASSES[n - 1]); }
    }
  }

  /** Permuting the rates, or adding rates of other versions or of unused classes, changes
      neither the cost nor the refusal. */
  lemma {:induction false} CostIgnoresOrder(rates: seq<Rate>, others: seq<Rate>, version: string, usage: Usage,
                                            round: real -> real, r: Outcome<ModelCost>)
    requires SameRelevant(rates, others, version, usage)
    ensures Costs(rates, version, usage, round, r) <==> Costs(others, version, usage, round, r)
  {
    SameSelection(rates, others, version, usage, |CLASSES|);
  }

  lemma {:induction false} PermutationIsSame(rates: seq<Rate>, others: seq<Rate>, extra: seq<Rate>, version: string,
                                             usage: Usage)
    requires multiset(rates) == multiset(others)
    requires forall rate :: rate in extra ==> !Relevant(rate, version, usage)
    ensures SameRelevant(rates, others + extra, version, usage)
  {
    forall rate | Relevant(rate, version, usage) ensures multiset(extra)[rate] == 0 {
      assert rate !in extra;
    }
  }

  // ------------------------------------------------------------------ closeness

  /** What a rounding has to be, and what the decimal context's rounding is. */
  ghost predicate Rounds(round: real -> real) {
    forall x :: x >= 0.0 ==> Close(round(x), x)
  }

  /** The exact amount of a class, and the exact total. */
  function ExactAmount(usage: Usage, selected: map<TokenClass, Rate>, c: TokenClass): real {
    if c in selected && selected[c].quantity > 0.0
      then ExactRateAmount(usage.Count(c), selected[c].quantity, selected[c].price) else 0.0
  }

  function ExactTotal(usage: Usage, selected: map<TokenClass, Rate>, n: nat): real
    requires n <= |CLASSES|
  {
    if n == 0 then 0.0 else ExactTotal(usage, selected, n - 1) + ExactAmount(usage, selected, CLASSES[n - 1])
  }

  ghost predicate ValidRates(selected: map<TokenClass, Rate>) {
    forall c :: c in selected ==> selected[c].Valid()
  }

  lemma RoundedIsNear(a: real, x: real, round: real -> real, k: nat)
    requires Rounds(round) && Near(a, x, k)
    ensures Near(round(a), x, k + 1)
  {
    assert Close(round(a), a);
    NearRounded(a, round(a), x, k);
  }

  lemma AmountIsNear(usage: Usage, selected: map<TokenClass, Rate>, c: TokenClass, round: real -> real, k: nat)
    requires Rounds(round) && ValidRates(selected)
    ensures Near(AmountOf(usage, selected, c, round), ExactAmount(usage, selected, c), k + 2)
  {
    if c in selected {
      RateAmountIsNear(usage.Count(c), selected[c].quantity, selected[c].price, round, k);
    } else {
      ZeroIsNear(k + 2);
    }
  }

  lemma RateAmountIsNear(count: nat, quantity: real, price: real, round: real -> real, k: nat)
    requires Rounds(round) && quantity > 0.0 && price >= 0.0
    ensures Near(RateAmount(count, quantity, price, round), ExactRateAmount(count, quantity, price), k + 2)
  {
    OverNotNegative(count as real, quantity);
    RateIsNear(Over(count as real, quantity), price, round, k);
  }

  lemma OverNotNegative(a: real, b: real)
    requires a >= 0.0 && b > 0.0
    ensures Over(a, b) >= 0.0
  {
  }

  lemma RateIsNear(q: real, price: real, round: real -> real, k: nat)
    requires Rounds(round) && q >= 0.0 && price >= 0.0
    ensures Near(round(Times(round(q), price)), Times(q, price), k + 2)
  {
    Exact(q);
    NearLonger(q, q, 0, k);
    RoundedIsNear(q, q, round, k);
    NearScaled(round(q), q, price, k + 1);
    RoundedIsNear(Times(round(q), price), Times(q, price), round, k + 1);
  }

  lemma ZeroIsNear(k: nat)
    ensures Near(0.0, 0.0, k)
  {
  }

  lemma {:induction false} TotalIsNear(usage: Usage, selected: map<TokenClass, Rate>, n: nat, round: real -> real)
    requires n <= |CLASSES| && Rounds(round) && ValidRates(selected)
    ensures Near(Total(usage, selected, n, round), ExactTotal(usage, selected, n), n + 2)
  {
    if n == 0 {
      ZeroIsNear(2);
    } else {
      var c := CLASSES[n - 1];
      TotalIsNear(usage, selected, n - 1, round);
      AmountIsNear(usage, selected, c, round, n - 1);
      var total, exact := Total(usage, selected, n - 1, round), ExactTotal(usage, selected, n - 1);
      var amount, exactAmount := AmountOf(usage, selected, c, round), ExactAmount(usage, selected, c);
      NearSum(total, exact, amount, exactAmount, n + 1);
      RoundedIsNear(total + amount, exact + exactAmount, round, n + 1);
    }
  }

  /** The amount in dollars differs from the exact one by at most (1 + U)^7 - 1 times it:
      two roundings for an amount, one for each of the four classes added, one for the
      conversion. */
  lemma {:induction false} CostIsClose(rates: seq<Rate>, version: string, usage: Usage, round: real -> real,
                                       r: Outcome<ModelCost>, c: TokenClass)
    requires Rounds(round) && Costs(rates, version, usage, round, r) && r.Ok?
    requires forall rate :: rate in rates ==> rate.Valid()
    ensures Select(rates, version, usage, |CLASSES|).Ok?
    ensures var selected := Select(rates, version, usage, |CLASSES|).value;
      c in selected ==>
        && Near(r.value.amountCurrency, ExactTotal(usage, selected, |CLASSES|), |CLASSES| + 2)
        && Near(r.value.amountUsd, Times(ExactTotal(usage, selected, |CLASSES|), selected[c].conversion), |CLASSES| + 3)
  {
    var selected := Select(rates, version, usage, |CLASSES|).value;
    SelectedAreRates(rates, version, usage, |CLASSES|);
    if c in selected {
      assert r == Ok(Price(usage, selected, selected[c].currency, selected[c].conversion, round));
      TotalIsNear(usage, selected, |CLASSES|, round);
      Converted(r.value.amountCurrency, ExactTotal(usage, selected, |CLASSES|), selected[c].conversion, round,
        |CLASSES| + 2);
    }
  }

  lemma Converted(total: real, exact: real, conversion: real, round: real -> real, k: nat)
    requires Rounds(round) && Near(total, exact, k) && conversion > 0.0
    ensures Near(round(Times(total, conversion)), Times(exact, conversion), k + 1)
  {
    NearScaled(total, exact, conversion, k);
    RoundedIsNear(Times(total, conversion), Times(exact, conversion), round, k);
  }

  lemma {:induction false} SelectedAreRates(rates: seq<Rate>, version: string, usage: Usage, n: nat)
    requires n <= |CLASSES| && Select(rates, version, usage, n).Ok?
    ensures var selected := Select(rates, version, usage, n).value;
      forall c :: c in selected ==> selected[c] in rates && Applies(selected[c], version, c) && usage.Count(c) > 0
    ensures forall i :: 0 <= i < n && usage.Count(CLASSES[i]) > 0 ==>
      CLASSES[i] in Select(rates, version, usage, n).value
  {
    if n > 0 {
      SelectedAreRates(rates, version, usage, n - 1);
      MatchingApply(rates, version, CLASSES[n - 1]);
    }
  }

  lemma {:induction false} MatchingApply(rates: seq<Rate>, version: string, c: TokenClass)
    ensures forall rate :: rate in Matching(rates, version, c) <==> rate in rates && Applies(rate, version, c)
    decreases |rates|
  {
    if rates != [] {
      var n := |rates| - 1;
      assert rates == rates[..n] + [rates[n]];
      MatchingApply(rates[..n], version, c);
    }
  }

  /** The decimal context's rounding is such a rounding. */
  lemma {:induction false} ContextRounds(round: real -> real)
    requires forall x :: x >= 0.0 ==> round(x) == Round(x)
    ensures Rounds(round)
  {
    forall x | x >= 0.0 ensures Close(round(x), x) { RoundIsClose(x); }
  }

  // ------------------------------------------------------------------ when there is a cost

  predicate OneRate(rates: seq<Rate>, version: string, c: TokenClass) {
    |Matching(rates, version, c)| == 1
  }

  predicate Agree(a: Rate, b: Rate) {
    a.currency == b.currency && a.conversion == b.conversion && a.rounding == b.rounding
  }

  function Place(c: TokenClass): (i: nat)
    ensures i < |CLASSES| && CLASSES[i] == c
  {
    match c
    case INPUT => 0
    case CACHED_INPUT => 1
    case REASONING => 2
    case OUTPUT => 3
  }

  /** The selection among the first `n` classes. */
  ghost predicate SelectedFirst(rates: seq<Rate>, version: string, usage: Usage, n: nat,
                                r: Outcome<map<TokenClass, Rate>>) {
    && (r.Ok? <==> forall c :: Place(c) < n && usage.Count(c) > 0 ==> OneRate(rates, version, c))
    && (r.Ok? ==>
          && (forall c :: c in r.value <==> usage.Count(c) > 0 && Place(c) < n)
          && (forall c :: c in r.value ==> OneRate(rates, version, c) && r.value[c] == Matching(rates, version, c)[0]))
  }

  lemma {:induction false} SelectsTheOnes(rates: seq<Rate>, version: string, usage: Usage, n: nat)
    requires n <= |CLASSES|
    ensures SelectedFirst(rates, version, usage, n, Select(rates, version, usage, n))
  {
    if n > 0 {
      SelectsTheOnes(rates, version, usage, n - 1);
      SelectsOneMore(rates, version, usage, n, Select(rates, version, usage, n - 1), Select(rates, version, usage, n));
    }
  }

  lemma {:induction false} SelectsOneMore(rates: seq<Rate>, version: string, usage: Usage, n: nat,
                                          before: Outcome<map<TokenClass, Rate>>, after: Outcome<map<TokenClass, Rate>>)
    requires 0 < n <= |CLASSES| && SelectedFirst(rates, version, usage, n - 1, before)
    requires var c := CLASSES[n - 1];
      if before.Refused? || usage.Count(c) == 0 then after == before
      else if !OneRate(rates, version, c) then after.Refused?
      else after == Ok(before.value[c := Matching(rates, version, c)[0]])
    ensures SelectedFirst(rates, version, usage, n, after)
  {
    forall c: TokenClass ensures Place(c) < n <==> Place(c) < n - 1 || c == CLASSES[n - 1] { }
  }

  /** The selection has exactly the used classes, each with its one rate. */
  ghost predicate IsSelection(rates: seq<Rate>, version: string, usage: Usage, selected: map<TokenClass, Rate>) {
    forall c :: (c in selected <==> usage.Count(c) > 0)
      && (c in selected ==> OneRate(rates, version, c) && selected[c] == Matching(rates, version, c)[0])
  }

  lemma {:induction false} SelectsTheUsed(rates: seq<Rate>, version: string, usage: Usage)
    ensures var selected := Select(rates, version, usage, |CLASSES|);
      if selected.Ok? then IsSelection(rates, version, usage, selected.value)
      else exists c :: usage.Count(c) > 0 && !OneRate(rates, version, c)
  {
    SelectsTheOnes(rates, version, usage, |CLASSES|);
  }

  lemma {:induction false} SharedMeansAgreed(rates: seq<Rate>, version: string, usage: Usage,
                                             selected: map<TokenClass, Rate>)
    requires usage.Valid() && IsSelection(rates, version, usage, selected)
    ensures Shared(selected) <==> Agreed(rates, version, usage)
  {
    var used: TokenClass :| usage.Count(used) > 0;
    assert used in selected;
    if Shared(selected) {
      forall c, d | Uses(rates, version, usage, c) && Uses(rates, version, usage, d)
        ensures Agree(Matching(rates, version, c)[0], Matching(rates, version, d)[0])
      {
        assert c in selected && d in selected;
      }
    } else if Agreed(rates, version, usage) {
      forall c, d | c in selected && d in selected ensures Agree(selected[c], selected[d]) {
        assert Uses(rates, version, usage, c) && Uses(rates, version, usage, d);
      }
    }
  }

  predicate Uses(rates: seq<Rate>, version: string, usage: Usage, c: TokenClass) {
    usage.Count(c) > 0 && OneRate(rates, version, c)
  }

  ghost predicate Agreed(rates: seq<Rate>, version: string, usage: Usage) {
    forall c, d :: Uses(rates, version, usage, c) && Uses(rates, version, usage, d) ==>
      Agree(Matching(rates, version, c)[0], Matching(rates, version, d)[0])
  }

  /** A used call has a cost exactly when every used class has one rate and these agree on
      currency, conversion and rounding rule; otherwise it is refused, never guessed. */
  lemma {:induction false} CostExactlyWhen(rates: seq<Rate>, version: string, usage: Usage, round: real -> real,
                                           r: Outcome<ModelCost>)
    requires usage.Valid() && Costs(rates, version, usage, round, r)
    ensures r.Ok? <==> (forall c :: usage.Count(c) > 0 ==> OneRate(rates, version, c)) && Agreed(rates, version, usage)
  {
    SelectsTheUsed(rates, version, usage);
    var selected := Select(rates, version, usage, |CLASSES|);
    if selected.Ok? {
      SharedMeansAgreed(rates, version, usage, selected.value);
      var used: TokenClass :| usage.Count(used) > 0;
      assert used in selected.value;
    }
  }
}
