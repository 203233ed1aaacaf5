/** The order tools the agent calls: the schema check on a submitted order, the
    rule-based fraud score, the shipping quote and the coupon discount. The
    database lookups they make are passed in as maps. */
module OrderTools {
  import opened Common
  import opened Text

  // ---------------------------------------------------------------------
  // validate_order_schema
  // ---------------------------------------------------------------------

  /** An order record as submitted: a JSON object. */
  type Order = map<string, Json>

  /** The fields an order must carry, in the order they are checked. */
  const RequiredFields: seq<string> := ["orderId", "customerId", "items"]

  /** A field counts as present when its key exists and its value is truthy. */
  predicate Present(order: Order, field: string) {
    field in order && Truthy(order[field])
  }

  /** The fields of `fields` that `order` lacks, in the order given. */
  function MissingAmong(fields: seq<string>, order: Order): seq<string> {
    if fields == [] then []
    else
      var last := fields[|fields| - 1];
      MissingAmong(fields[..|fields| - 1], order) + (if Present(order, last) then [] else [last])
  }

  function MissingFields(order: Order): seq<string> {
    MissingAmong(RequiredFields, order)
  }

  function MissingMessage(field: string): string {
    "Missing required field: " + field
  }

  function Question(field: string): string {
    "Please provide " + field
  }

  function MissingMessages(fields: seq<string>): seq<string> {
    seq(|fields|, i requires 0 <= i < |fields| => MissingMessage(fields[i]))
  }

  function Questions(fields: seq<string>): seq<string> {
    seq(|fields|, i requires 0 <= i < |fields| => Question(fields[i]))
  }

  /** An item is acceptable when it is an object with a name and a quantity key. */
  predicate ItemOk(item: Json) {
    item.JObj? && "name" in item.fields && "quantity" in item.fields
  }

  /** The message for the bad item at index `i`. */
  function ItemMessage(i: nat, item: Json): string {
    if !item.JObj? then "Item " + NatToString(i) + " must be a dictionary"
    else "Item " + NatToString(i) + " missing required fields: name, quantity"
  }

  /** The messages for the bad items of `items`, in index order. */
  function ItemErrors(items: seq<Json>): seq<string> {
    if items == [] then []
    else
      var n := |items| - 1;
      ItemErrors(items[..n]) + (if ItemOk(items[n]) then [] else [ItemMessage(n, items[n])])
  }

  const NotAList := "Items must be a non-empty list"

  /** The errors about the `items` field; none when the key is absent (that is
      reported as a missing field). */
  function ItemsErrors(order: Order): seq<string> {
    if "items" !in order then []
    else
      var items := order["items"];
      if !items.JList? || items.elems == [] then [NotAList] else ItemErrors(items.elems)
  }

  /** What the validator returns. `nextAction` is `Some("ASK_USER")` or absent. */
  datatype Validation = Validation(
    valid: bool,
    missingFields: seq<string>,
    errors: seq<string>,
    nextAction: Option<string>,
    questions: seq<string>)

  /** The validator's result, as a function of the order. */
  function Validate(order: Order): Validation {
    var missing := MissingFields(order);
    var errors := MissingMessages(missing) + ItemsErrors(order);
    var valid := errors == [];
    Validation(valid, missing, errors, if valid then None else Some("ASK_USER"), Questions(missing))
  }

  /** The validator as the source runs it: one pass over the required fields,
      then one over the items. */
  method ValidateOrderSchema(order: Order) returns (r: Validation)
    ensures r == Validate(order)
  {
    var missing := CollectMissing(order);
    var errors := MissingMessages(missing);
    if "items" in order {
      var items := order["items"];
      if !items.JList? || |items.elems| == 0 {
        errors := errors + [NotAList];
      } else {
        var itemErrors := CollectItemErrors(items.elems);
        errors := errors + itemErrors;
      }
    }
    var valid := |errors| == 0;
    r := Validation(valid, missing, errors, if valid then None else Some("ASK_USER"), Questions(missing));
  }

  /** The pass over the required fields. */
  method CollectMissing(order: Order) returns (missing: seq<string>)
    ensures missing == MissingFields(order)
  {
    missing := [];
    for k := 0 to |RequiredFields|
      invariant missing == MissingAmong(RequiredFields[..k], order)
    {
      var field := RequiredFields[k];
      assert RequiredFields[..k + 1][..k] == RequiredFields[..k];
      if field !in order || !Truthy(order[field]) {
        missing := missing + [field];
      }
    }
    assert RequiredFields[..|RequiredFields|] == RequiredFields;
  }

  /** The pass over the items of a non-empty item list. */
  method CollectItemErrors(items: seq<Json>) returns (errors: seq<string>)
    ensures errors == ItemErrors(items)
  {
    errors := [];
    for i := 0 to |items|
      invariant errors == ItemErrors(items[..i])
    {
      assert items[..i + 1][..i] == items[..i];
      var item := items[i];
      if !item.JObj? || "name" !in item.fields || "quantity" !in item.fields {
        errors := errors + [ItemMessage(i, item)];
      }
    }
    assert items[..|items|] == items;
  }

  /** The missing fields are the required fields the order lacks, in order. */
  lemma MissingFieldsInOrder(order: Order)
    ensures MissingFields(order) ==
      (if Present(order, "orderId") then [] else ["orderId"]) +
      (if Present(order, "customerId") then [] else ["customerId"]) +
      (if Present(order, "items") then [] else ["items"])
  {
    var r := RequiredFields;
    assert r[..3][..2] == r[..2] && r[..2][..1] == r[..1] && r[..1][..0] == [];
    assert r[..3] == r;
    assert MissingAmong(r[..1], order) == (if Present(order, "orderId") then [] else ["orderId"]);
    assert MissingAmong(r[..2], order) == MissingAmong(r[..1], order) +
      (if Present(order, "customerId") then [] else ["customerId"]);
  }

  /** There is no item error exactly when every item is acceptable. */
  lemma {:induction false} ItemErrorsEmpty(items: seq<Json>)
    ensures ItemErrors(items) == [] <==> forall i :: 0 <= i < |items| ==> ItemOk(items[i])
  {
    if items != [] {
      var n := |items| - 1;
      ItemErrorsEmpty(items[..n]);
      assert forall i :: 0 <= i < n ==> items[..n][i] == items[i];
    }
  }

  /** Every item error names a bad item by its index, and every bad item has one. */
  lemma {:induction false} ItemErrorsIndexed(items: seq<Json>)
    ensures forall i :: 0 <= i < |items| && !ItemOk(items[i]) ==> ItemMessage(i, items[i]) in ItemErrors(items)
    ensures forall e :: e in ItemErrors(items) ==>
      exists i :: 0 <= i < |items| && !ItemOk(items[i]) && e == ItemMessage(i, items[i])
  {
    ItemErrorsComplete(items);
    ItemErrorsSound(items);
  }

  lemma {:induction false} ItemErrorsComplete(items: seq<Json>)
    ensures forall i :: 0 <= i < |items| && !ItemOk(items[i]) ==> ItemMessage(i, items[i]) in ItemErrors(items)
  {
    if items != [] {
      var n := |items| - 1;
      ItemErrorsComplete(items[..n]);
      assert forall i :: 0 <= i < n ==> items[..n][i] == items[i];
    }
  }

  lemma {:induction false} ItemErrorsSound(items: seq<Json>)
    ensures forall e :: e in ItemErrors(items) ==>
      exists i :: 0 <= i < |items| && !ItemOk(items[i]) && e == ItemMessage(i, items[i])
  {
    if items != [] {
      var n := |items| - 1;
      ItemErrorsSound(items[..n]);
      assert forall i :: 0 <= i < n ==> items[..n][i] == items[i];
    }
  }

  /** An order is valid exactly when its id and customer are given and its items
      are a non-empty list of objects each having a name and a quantity. */
  lemma ValidIff(order: Order)
    ensures Validate(order).valid <==>
      Present(order, "orderId") && Present(order, "customerId") &&
      "items" in order && order["items"].JList? && order["items"].elems != [] &&
      forall i :: 0 <= i < |order["items"].elems| ==> ItemOk(order["items"].elems[i])
  {
    MissingFieldsInOrder(order);
    if "items" in order && order["items"].JList? {
      ItemErrorsEmpty(order["items"].elems);
    }
  }

  /** The validator asks the user exactly when the order is invalid, and then
      asks one question per missing field, each field's question in its place. */
  lemma ValidationAsks(order: Order)
    ensures Validate(order).nextAction == Some("ASK_USER") <==> !Validate(order).valid
    ensures Validate(order).valid <==> Validate(order).errors == []
    ensures |Validate(order).questions| == |Validate(order).missingFields|
    ensures forall i :: 0 <= i < |Validate(order).missingFields| ==>
      Validate(order).questions[i] == "Please provide " + Validate(order).missingFields[i] &&
      Validate(order).errors[i] == "Missing required field: " + Validate(order).missingFields[i]
  {
  }

  // ---------------------------------------------------------------------
  // fraud_check
  // ---------------------------------------------------------------------

  /** A fraud rule from the graph store. A missing or null threshold is 0, which
      disables the rule; a missing manual-review flag is false. */
  datatype FraudRule = FraudRule(
    id: Option<string>,
    thresholdAmount: real,
    description: Option<string>,
    requiresManualReview: bool)

  /** The parts of an order the fraud check reads: the total (0 when missing or
      null), the customer id, and each item's price (0 when missing or null). */
  datatype FraudInput = FraudInput(totalAmount: real, customerId: Option<string>, itemPrices: seq<real>)

  /** The flag texts: a rule's own description or "Amount exceeds $threshold",
      and the three fixed heuristic messages. */
  datatype Flag = RuleFlag(text: string) | AmountExceeds(threshold: real) | GuestCustomer | HighItemCount | HighAveragePrice

  datatype RiskLevel = Low | Medium | High

  datatype FraudReport = FraudReport(
    riskScore: int,
    riskLevel: RiskLevel,
    approved: bool,
    flags: seq<Flag>,
    requiresReview: bool,
    rulesEvaluated: seq<Option<string>>)

  /** A rule fires when it has a non-zero threshold the amount reaches. */
  predicate Fires(rule: FraudRule, amount: real) {
    rule.thresholdAmount != 0.0 && amount >= rule.thresholdAmount
  }

  function FlagOf(rule: FraudRule): Flag {
    if Given(rule.description) then RuleFlag(rule.description.value) else AmountExceeds(rule.thresholdAmount)
  }

  /** Some firing rule in `rules` raises flag `f`. */
  predicate RaisedBy(rules: seq<FraudRule>, amount: real, f: Flag) {
    exists i :: 0 <= i < |rules| && Fires(rules[i], amount) && f == FlagOf(rules[i])
  }

  /** The flags of the firing rules, in rule order: a filter over the rules,
      independent of how the pass accumulates them. */
  function FiringFlags(rules: seq<FraudRule>, amount: real): seq<Flag> {
    if rules == [] then []
    else (if Fires(rules[0], amount) then [FlagOf(rules[0])] else []) + FiringFlags(rules[1..], amount)
  }

  /** Filtering one more rule at the end appends its flag when it fires. */
  lemma {:induction false} FiringFlagsAppend(rules: seq<FraudRule>, rule: FraudRule, amount: real)
    ensures FiringFlags(rules + [rule], amount)
      == FiringFlags(rules, amount) + (if Fires(rule, amount) then [FlagOf(rule)] else [])
  {
    if rules != [] {
      assert (rules + [rule])[1..] == rules[1..] + [rule];
      FiringFlagsAppend(rules[1..], rule, amount);
    } else {
      assert [rule][1..] == [];
    }
  }

  /** Every firing rule's flag is among the filtered flags. */
  lemma {:induction false} FiringFlagsComplete(rules: seq<FraudRule>, amount: real, i: nat)
    requires i < |rules| && Fires(rules[i], amount)
    ensures FlagOf(rules[i]) in FiringFlags(rules, amount)
  {
    if i > 0 {
      FiringFlagsComplete(rules[1..], amount, i - 1);
    }
  }

  /** What the pass over the rules accumulates. */
  datatype RuleTally = RuleTally(score: int, flags: seq<Flag>, manual: bool)

  /** The pass over the rules, as a function of the rules seen so far. */
  function Tally(rules: seq<FraudRule>, amount: real): RuleTally {
    if rules == [] then RuleTally(0, [], false)
    else
      var t := Tally(rules[..|rules| - 1], amount);
      var rule := rules[|rules| - 1];
      if Fires(rule, amount) then RuleTally(t.score + 20, t.flags + [FlagOf(rule)], t.manual || rule.requiresManualReview)
      else t
  }

  /** Some firing rule demands a manual review. */
  predicate ManualReviewTriggered(rules: seq<FraudRule>, amount: real) {
    exists i :: 0 <= i < |rules| && Fires(rules[i], amount) && rules[i].requiresManualReview
  }

  /** A missing or empty customer id, or one starting with "GUEST". */
  predicate IsGuest(customerId: Option<string>) {
    !Given(customerId) || (|customerId.value| >= 5 && customerId.value[..5] == "GUEST")
  }

  function Sum(xs: seq<real>): real {
    if xs == [] then 0.0 else Sum(xs[..|xs| - 1]) + xs[|xs| - 1]
  }

  predicate AnyPriced(prices: seq<real>) {
    exists i :: 0 <= i < |prices| && prices[i] != 0.0
  }

  /** Some item has a price and the mean price is above 500. */
  predicate HighAverage(prices: seq<real>) {
    AnyPriced(prices) && Sum(prices) / (if |prices| > 1 then |prices| else 1) as real > 500.0
  }

  function Level(score: int, manual: bool): RiskLevel {
    if score >= 30 || manual then High else if score >= 15 then Medium else Low
  }

  function RuleIds(rules: seq<FraudRule>): seq<Option<string>> {
    seq(|rules|, i requires 0 <= i < |rules| => rules[i].id)
  }

  /** The fraud report, as a function of the order and the rules. */
  function Assess(input: FraudInput, rules: seq<FraudRule>): FraudReport {
    var t := Tally(rules, input.totalAmount);
    var guest := IsGuest(input.customerId);
    var many := |input.itemPrices| > 10;
    var pricey := HighAverage(input.itemPrices);
    var score := t.score + (if guest then 15 else 0) + (if many then 10 else 0) + (if pricey then 5 else 0);
    var flags := t.flags + (if guest then [GuestCustomer] else []) + (if many then [HighItemCount] else [])
      + (if pricey then [HighAveragePrice] else []);
    var level := Level(score, t.manual);
    FraudReport(score, level, level != High, flags, t.manual || score >= 15, RuleIds(rules))
  }

  /** The fraud check as the source runs it: a loop over the rules, then the
      heuristics. */
  method FraudCheck(input: FraudInput, rules: seq<FraudRule>) returns (r: FraudReport)
    ensures r == Assess(input, rules)
  {
    var amount := input.totalAmount;
    var score := 0;
    var flags: seq<Flag> := [];
    var manual := false;
    for i := 0 to |rules|
      invariant RuleTally(score, flags, manual) == Tally(rules[..i], amount)
    {
      assert rules[..i + 1][..i] == rules[..i];
      var rule := rules[i];
      if rule.thresholdAmount != 0.0 && amount >= rule.thresholdAmount {
        score := score + 20;
        flags := flags + [FlagOf(rule)];
        if rule.requiresManualReview {
          manual := true;
        }
      }
    }
    assert rules[..|rules|] == rules;
    if IsGuest(input.customerId) {
      score := score + 15;
      flags := flags + [GuestCustomer];
    }
    if |input.itemPrices| > 10 {
      score := score + 10;
      flags := flags + [HighItemCount];
    }
    if HighAverage(input.itemPrices) {
      score := score + 5;
      flags := flags + [HighAveragePrice];
    }
    var level := if score >= 30 || manual then High else if score >= 15 then Medium else Low;
    r := FraudReport(score, level, level != High, flags, manual || score >= 15, RuleIds(rules));
  }

  /** Each firing rule adds 20 points and one flag; the pass demands manual
      review exactly when a firing rule asks for it. */
  lemma {:induction false} TallyScore(rules: seq<FraudRule>, amount: real)
    ensures Tally(rules, amount).score == 20 * |Tally(rules, amount).flags|
    ensures |Tally(rules, amount).flags| <= |rules|
    ensures Tally(rules, amount).manual <==> ManualReviewTriggered(rules, amount)
  {
    if rules != [] {
      var n := |rules| - 1;
      TallyScore(rules[..n], amount);
      if ManualReviewTriggered(rules, amount) {
        var i :| 0 <= i < |rules| && Fires(rules[i], amount) && rules[i].requiresManualReview;
        if i < n {
          assert rules[..n][i] == rules[i];
        }
      }
      if ManualReviewTriggered(rules[..n], amount) {
        var i :| 0 <= i < n && Fires(rules[..n][i], amount) && rules[..n][i].requiresManualReview;
        assert rules[..n][i] == rules[i];
      }
    }
  }

  /** The flags are exactly the flags of the firing rules, in rule order: every
      firing rule contributes its flag, and every flag names a firing rule. */
  lemma {:induction false} TallyShape(rules: seq<FraudRule>, amount: real)
    ensures Tally(rules, amount).flags == FiringFlags(rules, amount)
    ensures forall i :: 0 <= i < |rules| && Fires(rules[i], amount) ==> FlagOf(rules[i]) in Tally(rules, amount).flags
    ensures forall j :: 0 <= j < |Tally(rules, amount).flags| ==> RaisedBy(rules, amount, Tally(rules, amount).flags[j])
  {
    if rules != [] {
      var n := |rules| - 1;
      TallyShape(rules[..n], amount);
      var t, t0 := Tally(rules, amount), Tally(rules[..n], amount);
      assert rules == rules[..n] + [rules[n]];
      FiringFlagsAppend(rules[..n], rules[n], amount);
      forall i | 0 <= i < |rules| && Fires(rules[i], amount)
        ensures FlagOf(rules[i]) in t.flags
      {
        FiringFlagsComplete(rules, amount, i);
      }
      forall j | 0 <= j < |t.flags|
        ensures RaisedBy(rules, amount, t.flags[j])
      {
        if j < |t0.flags| {
          assert RaisedBy(rules[..n], amount, t0.flags[j]);
          var i :| 0 <= i < n && Fires(rules[..n][i], amount) && t0.flags[j] == FlagOf(rules[..n][i]);
          assert t.flags[j] == t0.flags[j];
          assert rules[..n][i] == rules[i];
          assert RaisedBy(rules, amount, t.flags[j]);
        } else {
          assert Fires(rules[n], amount) && t.flags[j] == FlagOf(rules[n]);
          assert RaisedBy(rules, amount, t.flags[j]);
        }
      }
    }
  }

  /** The risk level, approval and review flag follow the score and the manual
      review demand: HIGH at 30 points or on a manual-review rule, MEDIUM from 15,
      LOW below; only HIGH is refused; everything above LOW is reviewed. */
  lemma RiskLevels(input: FraudInput, rules: seq<FraudRule>)
    ensures var r := Assess(input, rules);
      var manual := ManualReviewTriggered(rules, input.totalAmount);
      && r.riskScore >= 0 && r.riskScore % 5 == 0
      && (r.riskLevel == High <==> r.riskScore >= 30 || manual)
      && (r.riskLevel == Medium <==> !manual && 15 <= r.riskScore < 30)
      && (r.riskLevel == Low <==> !manual && r.riskScore < 15)
      && (r.approved <==> r.riskLevel != High)
      && (r.requiresReview <==> r.riskLevel != Low)
      && (IsGuest(input.customerId) ==> r.requiresReview)
      && r.rulesEvaluated == RuleIds(rules)
  {
    TallyScore(rules, input.totalAmount);
  }

  /** Raising the amount never lowers the rule tally. */
  lemma {:induction false} TallyMonotone(rules: seq<FraudRule>, a: real, b: real)
    requires a <= b
    ensures Tally(rules, a).score <= Tally(rules, b).score
    ensures Tally(rules, a).manual ==> Tally(rules, b).manual
  {
    if rules != [] {
      TallyMonotone(rules[..|rules| - 1], a, b);
    }
  }

  /** A larger order total never scores lower, and never leaves HIGH risk or review. */
  lemma FraudMonotone(input: FraudInput, rules: seq<FraudRule>, more: real)
    requires input.totalAmount <= more
    ensures var r1 := Assess(input, rules);
      var r2 := Assess(input.(totalAmount := more), rules);
      && r1.riskScore <= r2.riskScore
      && (r1.riskLevel == High ==> r2.riskLevel == High)
      && (r1.requiresReview ==> r2.requiresReview)
      && (!r2.approved ==> !r1.approved || r2.riskScore >= 30 || ManualReviewTriggered(rules, more))
  {
    TallyMonotone(rules, input.totalAmount, more);
    TallyScore(rules, more);
  }

  // ---------------------------------------------------------------------
  // calculate_shipping
  // ---------------------------------------------------------------------

  /** A shipping-method record from the graph store; each field is absent when
      the record lacks that key. */
  datatype ShippingMethod = ShippingMethod(name: Option<string>, deliveryEstimate: Option<string>, baseRate: Option<real>)

  const BaseRates: map<string, real> := map["standard" := 7.99, "express" := 19.99, "overnight" := 29.99, "free" := 0.0]

  const EstimatedDays: map<string, int> := map["standard" := 5, "express" := 2, "overnight" := 1, "free" := 5]

  const DefaultEstimate := "3-5 business days"

  datatype ShippingQuote = ShippingQuote(
    shippingMethod: string,
    shippingLabel: string,
    shippingCost: real,
    estimatedDays: int,
    deliveryEstimate: string)

  /** The lower-cased method asked for, "standard" when none is given. */
  function RequestedMethod(requested: Option<string>): string {
    Lower(if Given(requested) then requested.value else "standard")
  }

  /** The method priced: the one asked for when the store or the rate table knows
      it, "standard" otherwise. */
  function ResolvedMethod(requested: Option<string>, methods: map<string, ShippingMethod>): string {
    var id := RequestedMethod(requested);
    if id !in methods && id !in BaseRates then "standard" else id
  }

  /** The shipping quote for an order amount, a requested method and the store's
      method records. */
  function CalculateShipping(amount: real, requested: Option<string>, methods: map<string, ShippingMethod>): ShippingQuote {
    var id := ResolvedMethod(requested, methods);
    var cost := if id in BaseRates then BaseRates[id] else BaseRates["standard"];
    var title := Title(id);
    var estimate := DefaultEstimate;
    var quote :=
      if id in methods then
        var info := methods[id];
        ShippingQuote(id, info.name.GetOr(title), info.baseRate.GetOr(cost),
                      0, info.deliveryEstimate.GetOr(estimate))
      else ShippingQuote(id, title, cost, 0, estimate);
    var quote := if amount >= 50.0 && id in {"standard", "free"}
      then quote.(shippingMethod := "free", shippingLabel := "Free Shipping", shippingCost := 0.0)
      else quote;
    quote.(estimatedDays := if quote.shippingMethod in EstimatedDays then EstimatedDays[quote.shippingMethod] else 5)
  }

  /** Unknown methods fall back to standard; the quote names the resolved method
      unless the free-shipping rule turned it into "free". */
  lemma ShippingMethodChosen(amount: real, requested: Option<string>, methods: map<string, ShippingMethod>)
    ensures var id := ResolvedMethod(requested, methods);
      && (id == RequestedMethod(requested) <==> RequestedMethod(requested) in methods || RequestedMethod(requested) in BaseRates)
      && (id != RequestedMethod(requested) ==> id == "standard")
      && (CalculateShipping(amount, requested, methods).shippingMethod == "free" <==>
            id == "free" || (id == "standard" && amount >= 50.0))
      && (CalculateShipping(amount, requested, methods).shippingMethod != "free" ==>
            CalculateShipping(amount, requested, methods).shippingMethod == id)
  {
  }

  /** From 50 on, standard and free shipping cost nothing. */
  lemma FreeShippingThreshold(amount: real, requested: Option<string>, methods: map<string, ShippingMethod>)
    requires amount >= 50.0
    requires ResolvedMethod(requested, methods) in {"standard", "free"}
    ensures CalculateShipping(amount, requested, methods) ==
      ShippingQuote("free", "Free Shipping", 0.0, 5, CalculateShipping(amount, requested, methods).deliveryEstimate)
  {
  }

  /** Below the free-shipping rule, the cost is the store's base rate when it has
      one and the rate table's otherwise (7.99 for a method not in the table). */
  lemma ShippingCost(amount: real, requested: Option<string>, methods: map<string, ShippingMethod>)
    requires !(amount >= 50.0 && ResolvedMethod(requested, methods) in {"standard", "free"})
    ensures var id := ResolvedMethod(requested, methods);
      var table := if id in BaseRates then BaseRates[id] else 7.99;
      CalculateShipping(amount, requested, methods).shippingCost ==
        (if id in methods && methods[id].baseRate.Some? then methods[id].baseRate.value else table)
  {
  }

  /** The delivery days follow the quoted method: 1 overnight, 2 express, 5 otherwise. */
  lemma ShippingDays(amount: real, requested: Option<string>, methods: map<string, ShippingMethod>)
    ensures var q := CalculateShipping(amount, requested, methods);
      q.estimatedDays == (if q.shippingMethod == "overnight" then 1 else if q.shippingMethod == "express" then 2 else 5)
  {
  }

  /** With non-negative store rates, a quote never costs less than nothing nor
      more than the dearest rate in play. */
  lemma ShippingCostBounds(amount: real, requested: Option<string>, methods: map<string, ShippingMethod>)
    requires forall m :: m in methods && methods[m].baseRate.Some? ==> methods[m].baseRate.value >= 0.0
    ensures var q := CalculateShipping(amount, requested, methods);
      && q.shippingCost >= 0.0
      && (q.shippingCost == 0.0 || (ResolvedMethod(requested, methods) in methods && methods[ResolvedMethod(requested, methods)].baseRate.Some?)
          || q.shippingCost in {7.99, 19.99, 29.99})
  {
  }

  // ---------------------------------------------------------------------
  // apply_coupon
  // ---------------------------------------------------------------------

  /** A coupon record from the graph store. A missing or null minimum or value is 0. */
  datatype Coupon = Coupon(
    code: Option<string>,
    active: bool,
    minimumOrderAmount: real,
    discountType: Option<string>,
    discountValue: real)

  datatype CouponError = InvalidOrInactive | BelowMinimum(minimum: real) | UnsupportedType

  /** A refused coupon leaves the amount as it is and discounts nothing; an
      applied one reports its discount, the resulting amount, and for a
      percentage the rate, for a shipping coupon free shipping. */
  datatype CouponOutcome =
    | NotApplied(error: Option<CouponError>, finalAmount: real)
    | Applied(couponCode: Option<string>, discountType: string, discount: real, finalAmount: real,
              discountRate: Option<real>, freeShipping: bool)

  /** The lower-cased discount type, "percentage" when none is given. */
  function DiscountKind(c: Coupon): string {
    Lower(if Given(c.discountType) then c.discountType.value else "percentage")
  }

  /** A percentage above 1 is read as a whole percentage, otherwise as a fraction. */
  function PercentRate(value: real): real {
    if value > 1.0 then value / 100.0 else value
  }

  /** Applying a coupon code to an order amount, with the store's coupons. */
  function ApplyCoupon(amount: real, code: Option<string>, coupons: map<string, Coupon>): CouponOutcome {
    if !Given(code) then NotApplied(None, amount)
    else if code.value !in coupons || !coupons[code.value].active then NotApplied(Some(InvalidOrInactive), amount)
    else
      var c := coupons[code.value];
      if c.minimumOrderAmount != 0.0 && amount < c.minimumOrderAmount then
        NotApplied(Some(BelowMinimum(c.minimumOrderAmount)), amount)
      else
        var kind := DiscountKind(c);
        if kind == "percentage" then
          var rate := PercentRate(c.discountValue);
          Applied(c.code, kind, amount * rate, amount - amount * rate, Some(rate), false)
        else if kind == "flat" then
          Applied(c.code, kind, c.discountValue, if amount - c.discountValue > 0.0 then amount - c.discountValue else 0.0, None, false)
        else if kind == "shipping" then
          Applied(c.code, kind, 0.0, amount, None, true)
        else NotApplied(Some(UnsupportedType), amount)
  }

  /** A coupon applies exactly when a code is given, names an active coupon whose
      minimum (if any) the amount meets, and has a known type; a refused coupon
      leaves the amount unchanged and says why, except when no code was given. */
  lemma CouponAppliesIff(amount: real, code: Option<string>, coupons: map<string, Coupon>)
    ensures var r := ApplyCoupon(amount, code, coupons);
      && (r.Applied? <==>
            Given(code) && code.value in coupons && coupons[code.value].active
            && (coupons[code.value].minimumOrderAmount == 0.0 || amount >= coupons[code.value].minimumOrderAmount)
            && DiscountKind(coupons[code.value]) in {"percentage", "flat", "shipping"})
      && (r.NotApplied? ==> r.finalAmount == amount && (r.error.None? <==> !Given(code)))
      && (r.Applied? ==> r.couponCode == coupons[code.value].code && r.discountType == DiscountKind(coupons[code.value]))
  {
  }

  /** A percentage coupon takes `rate` of the amount, the rate being the value or,
      above 1, the value over 100; for a value between 0 and 100 the result stays
      between 0 and the amount. */
  lemma PercentageCoupon(amount: real, code: Option<string>, coupons: map<string, Coupon>)
    requires ApplyCoupon(amount, code, coupons).Applied?
    requires ApplyCoupon(amount, code, coupons).discountType == "percentage"
    ensures var r := ApplyCoupon(amount, code, coupons);
      var v := coupons[code.value].discountValue;
      && r.discountRate == Some(if v > 1.0 then v / 100.0 else v)
      && r.discount + r.finalAmount == amount
      && (0.0 <= v <= 100.0 && amount >= 0.0 ==> 0.0 <= r.finalAmount <= amount)
  {
    var v := coupons[code.value].discountValue;
    var rate := PercentRate(v);
    assert ApplyCoupon(amount, code, coupons).finalAmount == amount - amount * rate;
    if 0.0 <= v <= 100.0 && amount >= 0.0 {
      ScaleBounds(amount, rate);
    }
  }

  lemma ScaleBounds(a: real, rate: real)
    requires a >= 0.0 && 0.0 <= rate <= 1.0
    ensures 0.0 <= a * rate <= a
  {
    assert a - a * rate == a * (1.0 - rate);
  }

  /** A flat coupon never takes the amount below zero, and otherwise takes off its value. */
  lemma FlatCoupon(amount: real, code: Option<string>, coupons: map<string, Coupon>)
    requires ApplyCoupon(amount, code, coupons).Applied?
    requires ApplyCoupon(amount, code, coupons).discountType == "flat"
    ensures var r := ApplyCoupon(amount, code, coupons);
      && r.finalAmount >= 0.0
      && r.discount == coupons[code.value].discountValue
      && (r.finalAmount == 0.0 || r.finalAmount == amount - r.discount)
      && (amount >= r.discount ==> r.finalAmount == amount - r.discount)
  {
  }

  /** A shipping coupon grants free shipping and leaves the amount as it is. */
  lemma ShippingCoupon(amount: real, code: Option<string>, coupons: map<string, Coupon>)
    requires ApplyCoupon(amount, code, coupons).Applied?
    requires ApplyCoupon(amount, code, coupons).discountType == "shipping"
    ensures var r := ApplyCoupon(amount, code, coupons);
      r.freeShipping && r.discount == 0.0 && r.finalAmount == amount && r.discountRate.None?
  {
  }

  /** No coupon whose value lies between 0 and 100 takes a non-negative amount
      below zero or above where it was. */
  lemma CouponNeverRaises(amount: real, code: Option<string>, coupons: map<string, Coupon>)
    requires amount >= 0.0
    requires Given(code) && code.value in coupons ==> 0.0 <= coupons[code.value].discountValue <= 100.0
    ensures 0.0 <= ApplyCoupon(amount, code, coupons).finalAmount <= amount
  {
    var r := ApplyCoupon(amount, code, coupons);
    if r.Applied? && r.discountType == "percentage" {
      PercentageCoupon(amount, code, coupons);
    }
  }
}
