/** The markup engine (markup-engine.ts): choose one rule, then price with it. */
module Markup {
  import opened Common
  import opened Text

  datatype MarkupType = Fixed | Percent

  datatype Tier = Standard | Premium | Agent

  datatype Rule = Rule(
    id: string, name: string, active: bool, priority: int,
    channelScope: Option<string>, airlineCode: Option<string>,
    routeFrom: Option<string>, routeTo: Option<string>,
    cabin: Option<string>, paxType: Option<string>,
    domestic: Option<bool>, tierScope: seq<Tier>,
    kind: MarkupType, value: int, maxAmount: Option<int>, minAmount: Option<int>,
    validFrom: Option<int>, validUntil: Option<int>, createdAt: int)

  datatype Input = Input(
    airlineCode: string, channel: string, cabin: Option<string>, paxType: Option<string>,
    domestic: Option<bool>, tier: Option<Tier>, route: Option<string>, netPrice: int)

  datatype Price = Price(ruleId: Option<string>, ruleName: Option<string>, markupAmount: int, sellPrice: int)

  datatype MarkupError = NegativeValue(ruleId: string)

  // ---- Which rules apply ----

  function NormalizeText(value: Option<string>): Option<string> {
    if value.None? || Trim(value.value) == [] then None else Some(UpperAll(Trim(value.value)))
  }

  predicate MatchesText(rule: Option<string>, input: Option<string>) {
    NormalizeText(rule).None? || NormalizeText(rule) == NormalizeText(input)
  }

  predicate MatchesTier(scope: seq<Tier>, tier: Option<Tier>) {
    scope == [] || (tier.Some? && tier.value in scope)
  }

  predicate MatchesValidity(rule: Rule, now: int) {
    && (rule.validFrom.Some? ==> rule.validFrom.value <= now)
    && (rule.validUntil.Some? ==> now <= rule.validUntil.value)
  }

  /** Two codes of three characters joined by the only dash, or nothing. */
  function ParseRoute(route: Option<string>): (Option<string>, Option<string>) {
    match NormalizeText(route)
    case None => (None, None)
    case Some(r) =>
      if |r| == 7 && r[3] == '-' && '-' !in r[..3] && '-' !in r[4..] then (Some(r[..3]), Some(r[4..]))
      else (None, None)
  }

  predicate Matches(rule: Rule, input: Input, now: int) {
    var (from, to) := ParseRoute(input.route);
    && rule.active
    && MatchesText(rule.channelScope, Some(input.channel))
    && MatchesText(rule.airlineCode, Some(input.airlineCode))
    && MatchesText(rule.cabin, input.cabin)
    && MatchesText(rule.paxType, input.paxType)
    && MatchesText(rule.routeFrom, from)
    && MatchesText(rule.routeTo, to)
    && (rule.domestic.Some? ==> input.domestic == rule.domestic)
    && MatchesTier(rule.tierScope, input.tier)
    && MatchesValidity(rule, now)
  }

  function Matching(rules: seq<Rule>, input: Input, now: int): seq<Rule> {
    if rules == [] then []
    else (if Matches(rules[0], input, now) then [rules[0]] else []) + Matching(rules[1..], input, now)
  }

  predicate Blank(text: Option<string>) {
    text.None? || Trim(text.value) == ""
  }

  /** A blank scope allows everything, any other one the same text, but for case and
      spaces around it. */
  predicate Allows(scope: Option<string>, text: Option<string>) {
    Blank(scope) || (text.Some? && UpperAll(Trim(scope.value)) == UpperAll(Trim(text.value)))
  }

  /** The route names these two airports. */
  predicate Connects(route: Option<string>, from: string, to: string) {
    && route.Some? && UpperAll(Trim(route.value)) == from + "-" + to
    && |from| == 3 && |to| == 3 && '-' !in from && '-' !in to
  }

  lemma RouteParts(route: Option<string>)
    ensures forall from, to :: Connects(route, from, to) <==> ParseRoute(route) == (Some(from), Some(to))
    ensures ParseRoute(route) == (None, None) || (ParseRoute(route).0.Some? && ParseRoute(route).1.Some?)
  {
    var text := if route.None? then "" else UpperAll(Trim(route.value));
    forall from: string, to: string | Connects(route, from, to) ensures ParseRoute(route) == (Some(from), Some(to)) {
      assert text[..3] == from && text[4..] == to && text[3] == '-';
    }
    if ParseRoute(route).0.Some? {
      assert text == text[..3] + "-" + text[4..];
    }
  }

  ghost predicate StartsWhere(scope: Option<string>, route: Option<string>) {
    Blank(scope) || exists from, to :: Connects(route, from, to) && Allows(scope, Some(from))
  }

  ghost predicate EndsWhere(scope: Option<string>, route: Option<string>) {
    Blank(scope) || exists from, to :: Connects(route, from, to) && Allows(scope, Some(to))
  }

  lemma RouteEndsIff(routeFrom: Option<string>, routeTo: Option<string>, route: Option<string>)
    ensures MatchesText(routeFrom, ParseRoute(route).0) <==> StartsWhere(routeFrom, route)
    ensures MatchesText(routeTo, ParseRoute(route).1) <==> EndsWhere(routeTo, route)
  {
    RouteParts(route);
    var (from, to) := ParseRoute(route);
    AllowsIff(routeFrom, from);
    AllowsIff(routeTo, to);
    if from.Some? {
      assert Connects(route, from.value, to.value);
    }
  }

  lemma AllowsIff(scope: Option<string>, text: Option<string>)
    ensures MatchesText(scope, text) <==> Allows(scope, text)
  {
  }

  /** Exactly when a rule applies: it is active and valid at the time, and each of its
      scopes is blank or says what the offer says. */
  lemma MatchesIff(rule: Rule, input: Input, now: int)
    ensures Matches(rule, input, now) <==>
            && rule.active
            && (rule.validFrom.Some? ==> rule.validFrom.value <= now)
            && (rule.validUntil.Some? ==> now <= rule.validUntil.value)
            && Allows(rule.channelScope, Some(input.channel)) && Allows(rule.airlineCode, Some(input.airlineCode))
            && Allows(rule.cabin, input.cabin) && Allows(rule.paxType, input.paxType)
            && StartsWhere(rule.routeFrom, input.route) && EndsWhere(rule.routeTo, input.route)
            && (rule.domestic == None || rule.domestic == input.domestic)
            && (rule.tierScope == [] || exists tier :: tier in rule.tierScope && input.tier == Some(tier))
  {
    AllowsIff(rule.channelScope, Some(input.channel));
    AllowsIff(rule.airlineCode, Some(input.airlineCode));
    AllowsIff(rule.cabin, input.cabin);
    AllowsIff(rule.paxType, input.paxType);
    RouteEndsIff(rule.routeFrom, rule.routeTo, input.route);
  }

  // ---- Order of precedence ----

  /** The comparator of `sortRules` is negative: higher priority, then older. */
  predicate Precedes(a: Rule, b: Rule) {
    a.priority > b.priority || (a.priority == b.priority && a.createdAt < b.createdAt)
  }

  function Insert(rule: Rule, sorted: seq<Rule>): seq<Rule> {
    if sorted == [] || !Precedes(sorted[0], rule) then [rule] + sorted
    else [sorted[0]] + Insert(rule, sorted[1..])
  }

  /** The stable sort of `Array.prototype.sort`, by insertion. */
  function SortRules(rules: seq<Rule>): seq<Rule> {
    if rules == [] then [] else Insert(rules[0], SortRules(rules[1..]))
  }

  predicate Ties(a: Rule, b: Rule) {
    !Precedes(a, b) && !Precedes(b, a)
  }

  /** The rules that tie with a given one, in the order listed. */
  function TiedWith(rules: seq<Rule>, rule: Rule): seq<Rule> {
    if rules == [] then []
    else (if Ties(rules[0], rule) then [rules[0]] else []) + TiedWith(rules[1..], rule)
  }

  ghost predicate Sorted(rules: seq<Rule>) {
    forall i, j :: 0 <= i < j < |rules| ==> !Precedes(rules[j], rules[i])
  }

  lemma {:induction false} InsertPermutes(rule: Rule, sorted: seq<Rule>)
    ensures multiset(Insert(rule, sorted)) == multiset{rule} + multiset(sorted)
  {
    if sorted != [] && Precedes(sorted[0], rule) {
      InsertPermutes(rule, sorted[1..]);
      assert sorted == [sorted[0]] + sorted[1..];
    }
  }

  lemma {:induction false} InsertSorted(rule: Rule, sorted: seq<Rule>)
    requires Sorted(sorted)
    ensures Sorted(Insert(rule, sorted))
  {
    if sorted != [] && Precedes(sorted[0], rule) {
      var rest := Insert(rule, sorted[1..]);
      InsertSorted(rule, sorted[1..]);
      InsertPermutes(rule, sorted[1..]);
      forall x | x in rest ensures !Precedes(x, sorted[0]) {
        assert x in multiset(rest);
        if x != rule {
          assert x in sorted[1..];
        }
      }
    }
  }

  lemma {:induction false} InsertStable(rule: Rule, sorted: seq<Rule>, any: Rule)
    ensures TiedWith(Insert(rule, sorted), any) == TiedWith([rule] + sorted, any)
  {
    assert ([rule] + sorted)[1..] == sorted;
    if sorted != [] && Precedes(sorted[0], rule) {
      var tail := sorted[1..];
      InsertStable(rule, tail, any);
      assert ([rule] + tail)[1..] == tail;
      assert Insert(rule, sorted)[1..] == Insert(rule, tail);
    }
  }

  /** `SortRules` is the stable sort by precedence: same rules, in order, and
      rules that tie keep the order in which they were listed. */
  lemma {:induction false} SortRulesIsStableSort(rules: seq<Rule>, any: Rule)
    ensures Sorted(SortRules(rules))
    ensures multiset(SortRules(rules)) == multiset(rules)
    ensures TiedWith(SortRules(rules), any) == TiedWith(rules, any)
  {
    if rules != [] {
      var rest := rules[1..];
      SortRulesIsStableSort(rest, any);
      InsertSorted(rules[0], SortRules(rest));
      InsertPermutes(rules[0], SortRules(rest));
      InsertStable(rules[0], SortRules(rest), any);
      assert rules == [rules[0]] + rest;
      assert ([rules[0]] + SortRules(rest))[1..] == SortRules(rest);
    }
  }

  // ---- The amount ----

  /** `Math.round(n / 10000)`: half a unit rounds up. */
  function RoundPer10000(n: int): int {
    (n + 5000) / 10000
  }

  /** Percent rules are capped first and floored last; fixed rules ignore both bounds. */
  function MarkupAmount(rule: Rule, netPrice: int): int {
    match rule.kind
    case Fixed => rule.value
    case Percent =>
      var amount := RoundPer10000(netPrice * rule.value);
      var capped := if rule.maxAmount.Some? && amount > rule.maxAmount.value then rule.maxAmount.value else amount;
      if rule.minAmount.Some? && capped < rule.minAmount.value then rule.minAmount.value else capped
  }

  function ChosenRule(input: Input, rules: seq<Rule>, now: int): Option<Rule> {
    var sorted := SortRules(Matching(rules, input, now));
    if sorted == [] then None else Some(sorted[0])
  }

  function ComputeMarkup(input: Input, rules: seq<Rule>, now: int): Result<Price, MarkupError> {
    match ChosenRule(input, rules, now)
    case None => Ok(Price(None, None, 0, input.netPrice))
    case Some(rule) =>
      if rule.value < 0 then Err(NegativeValue(rule.id))
      else
        var amount := MarkupAmount(rule, input.netPrice);
        Ok(Price(Some(rule.id), Some(rule.name), amount, input.netPrice + amount))
  }

  // ---- Properties ----

  /** k is where one scan of the list for highest priority, then oldest, then
      first listed, would stop. */
  ghost predicate IsBest(rules: seq<Rule>, input: Input, now: int, k: nat) {
    && k < |rules| && Matches(rules[k], input, now)
    && forall j :: 0 <= j < |rules| && j != k && Matches(rules[j], input, now) ==>
         || rules[j].priority < rules[k].priority
         || (rules[j].priority == rules[k].priority
             && (rules[k].createdAt < rules[j].createdAt || (rules[k].createdAt == rules[j].createdAt && k < j)))
  }

  /** One more rule in front is chosen unless it does not match or the choice from
      the others precedes it. */
  lemma ChosenRuleStep(rule: Rule, rest: seq<Rule>, input: Input, now: int)
    ensures var chosen := ChosenRule(input, rest, now);
            ChosenRule(input, [rule] + rest, now) ==
            if Matches(rule, input, now) && (chosen == None || !Precedes(chosen.value, rule)) then Some(rule) else chosen
  {
    assert ([rule] + rest)[1..] == rest;
    var matching := Matching(rest, input, now);
    if Matches(rule, input, now) {
      assert Matching([rule] + rest, input, now) == [rule] + matching;
      assert ([rule] + matching)[1..] == matching;
    } else {
      assert Matching([rule] + rest, input, now) == [] + matching == matching;
    }
  }

  /** Filtering, sorting stably and taking the first rule equals one scan. */
  lemma {:induction false} ChosenRuleIsBest(rules: seq<Rule>, input: Input, now: int) returns (k: nat)
    ensures ChosenRule(input, rules, now).None? <==> forall j :: 0 <= j < |rules| ==> !Matches(rules[j], input, now)
    ensures ChosenRule(input, rules, now).Some? ==>
              IsBest(rules, input, now, k) && ChosenRule(input, rules, now) == Some(rules[k])
  {
    k := 0;
    if rules != [] {
      var rest := rules[1..];
      var k' := ChosenRuleIsBest(rest, input, now);
      ChosenRuleStep(rules[0], rest, input, now);
      assert rules == [rules[0]] + rest;
      if !Matches(rules[0], input, now) || (ChosenRule(input, rest, now).Some? && Precedes(rest[k'], rules[0])) {
        k := k' + 1;
      }
    }
  }

  /** The scan's stopping point is unique, so any way of finding it prices alike. */
  lemma ChoiceIsTheScan(rules: seq<Rule>, input: Input, now: int, k: nat)
    requires IsBest(rules, input, now, k)
    ensures ChosenRule(input, rules, now) == Some(rules[k])
  {
    var k' := ChosenRuleIsBest(rules, input, now);
    assert k' == k;
  }

  lemma {:induction false} MatchingConcat(a: seq<Rule>, b: seq<Rule>, input: Input, now: int)
    ensures Matching(a + b, input, now) == Matching(a, input, now) + Matching(b, input, now)
  {
    if a == [] {
      assert a + b == b;
    } else {
      assert (a + b)[1..] == a[1..] + b;
      MatchingConcat(a[1..], b, input, now);
    }
  }

  /** Listing a rule that does not apply, anywhere, changes no price. */
  lemma IrrelevantRuleChangesNothing(a: seq<Rule>, rule: Rule, b: seq<Rule>, input: Input, now: int)
    requires !Matches(rule, input, now)
    ensures ComputeMarkup(input, a + [rule] + b, now) == ComputeMarkup(input, a + b, now)
  {
    MatchingConcat(a + [rule], b, input, now);
    MatchingConcat(a, [rule], input, now);
    MatchingConcat(a, b, input, now);
    assert Matching([rule], input, now) == [];
    assert Matching(a + [rule], input, now) == Matching(a, input, now);
  }

  /** What a rule asks for a net price: a fixed rule its value, a percentage rule the
      nearest whole number to that many hundredths of a percent, halves up, lowered to
      the cap and then raised to the floor. */
  ghost predicate Charges(rule: Rule, netPrice: int, amount: int) {
    match rule.kind
    case Fixed => amount == rule.value
    case Percent =>
      exists share :: Nearest(share, netPrice * rule.value)
                      && amount == AtLeast(rule.minAmount, AtMost(rule.maxAmount, share))
  }

  predicate Nearest(share: int, tenThousandths: int) {
    -5000 < 10000 * share - tenThousandths <= 5000
  }

  function AtMost(cap: Option<int>, x: int): int {
    if cap.Some? && cap.value < x then cap.value else x
  }

  function AtLeast(floor: Option<int>, x: int): int {
    if floor.Some? && x < floor.value then floor.value else x
  }

  lemma AmountIff(rule: Rule, netPrice: int, amount: int)
    ensures MarkupAmount(rule, netPrice) == amount <==> Charges(rule, netPrice, amount)
  {
    if rule.kind == Percent {
      assert Nearest(RoundPer10000(netPrice * rule.value), netPrice * rule.value);
    }
  }

  /** What the rules ask for an offer: the net price, and on top of it what the first
      rule in precedence asks, if any rule applies. */
  ghost predicate RulesAsk(input: Input, rules: seq<Rule>, now: int, price: int) {
    || (price == input.netPrice && forall j :: 0 <= j < |rules| ==> !Matches(rules[j], input, now))
    || exists k: nat :: IsBest(rules, input, now, k) && Charges(rules[k], input.netPrice, price - input.netPrice)
  }

  /** The computed price is what the rules ask; it is refused exactly when the rule that
      applies first has a negative value. */
  lemma PriceIsWhatTheRulesAsk(input: Input, rules: seq<Rule>, now: int, price: int)
    ensures var r := ComputeMarkup(input, rules, now);
            && (r.Ok? ==> (RulesAsk(input, rules, now, price) <==> r.value.sellPrice == price)
                          && r.value.markupAmount == r.value.sellPrice - input.netPrice)
            && (r.Err? <==> exists k: nat :: IsBest(rules, input, now, k) && rules[k].value < 0)
  {
    var k := ChosenRuleIsBest(rules, input, now);
    if ChosenRule(input, rules, now).Some? {
      assert forall k': nat :: IsBest(rules, input, now, k') <==> k' == k;
      AmountIff(rules[k], input.netPrice, price - input.netPrice);
    }
  }

  /** Without bounds, a percentage is off by at most half a dong, ties going up. */
  lemma PercentWithinHalfDong(rule: Rule, netPrice: int)
    requires rule.kind == Percent && rule.maxAmount.None? && rule.minAmount.None?
    ensures -5000 < 10000 * MarkupAmount(rule, netPrice) - netPrice * rule.value <= 5000
  {
  }

  /** With both bounds the amount stays between them; a floor above the cap wins. */
  lemma PercentWithinBounds(rule: Rule, netPrice: int)
    requires rule.kind == Percent && rule.maxAmount.Some? && rule.minAmount.Some?
    ensures rule.minAmount.value <= MarkupAmount(rule, netPrice)
    ensures MarkupAmount(rule, netPrice) <= rule.maxAmount.value
            || MarkupAmount(rule, netPrice) == rule.minAmount.value
  {
  }

  lemma AmountGrowsWithNet(rule: Rule, net1: int, net2: int)
    requires 0 <= rule.value && net1 <= net2
    ensures MarkupAmount(rule, net1) <= MarkupAmount(rule, net2)
  {
    assert net2 * rule.value - net1 * rule.value == (net2 - net1) * rule.value;
    assert 0 <= (net2 - net1) * rule.value;
  }

  /** A dearer net fare is always sold dearer. */
  lemma SellPriceStrictlyIncreasing(input: Input, rules: seq<Rule>, now: int, dearer: int)
    requires input.netPrice < dearer
    requires ComputeMarkup(input, rules, now).Ok?
    ensures ComputeMarkup(input.(netPrice := dearer), rules, now).Ok?
    ensures ComputeMarkup(input, rules, now).value.sellPrice
            < ComputeMarkup(input.(netPrice := dearer), rules, now).value.sellPrice
  {
    MatchingIgnoresNet(rules, input, now, dearer);
    match ChosenRule(input, rules, now)
    case None =>
    case Some(rule) => AmountGrowsWithNet(rule, input.netPrice, dearer);
  }

  lemma {:induction false} MatchingIgnoresNet(rules: seq<Rule>, input: Input, now: int, net: int)
    ensures Matching(rules, input.(netPrice := net), now) == Matching(rules, input, now)
  {
    if rules != [] {
      MatchingIgnoresNet(rules[1..], input, now, net);
    }
  }
}
