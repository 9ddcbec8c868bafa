/** Allocation rules: pairwise admission at save time, and the spend each rule then takes. */
module Allocation {
  import opened Options
  import opened Ownership
  import Sums

  type ProjectId = nat

  datatype Kind = WholeAccounts | Tag | Category | AccountTag | AccountCategory

  datatype Rule = Rule(project: ProjectId, kind: Kind, accounts: set<AccountId>, key: string, values: set<string>,
                       start: Day, end: Option<Day>, active: bool)
  {
    predicate Covers(day: Day) {
      start <= day && (end.None? || day < end.value)
    }

    predicate UsesAccounts() {
      kind.WholeAccounts? || kind.AccountTag? || kind.AccountCategory?
    }

    predicate ByTag() {
      kind.Tag? || kind.AccountTag?
    }

    function EndOrMax(): Day {
      if end.Some? then end.value else MAX_DAY
    }
  }

  // --- Admission -----------------------------------------------------------------------------

  predicate OverlappingDates(a: Rule, b: Rule) {
    a.start < b.EndOrMax() && b.start < a.EndOrMax()
  }

  datatype Objection = SharedAccounts | ClaimedAccounts | SharedValues | DifferentKey

  predicate SameScope(a: Rule, b: Rule) {
    || (!a.UsesAccounts() && !b.UsesAccounts())
    || !(a.accounts !! b.accounts)
    || (a.UsesAccounts() != b.UsesAccounts() && !(a.kind.WholeAccounts? || b.kind.WholeAccounts?))
  }

  /** What `validate_rule` objects to between a new rule and one that is there. */
  function Objects(a: Rule, b: Rule): Option<Objection> {
    if !OverlappingDates(a, b) then None
    else if a.kind.WholeAccounts? && b.kind.WholeAccounts? then
      if !(a.accounts !! b.accounts) then Some(SharedAccounts) else None
    else if a.kind.WholeAccounts? || b.kind.WholeAccounts? then
      var partial := if a.kind.WholeAccounts? then b else a;
      if partial.UsesAccounts() && !(a.accounts !! b.accounts) then Some(ClaimedAccounts) else None
    else if !SameScope(a, b) then None
    else if a.key == b.key && !(a.values !! b.values) then Some(SharedValues)
    else if a.key != b.key then Some(DifferentKey)
    else None
  }

  type Rules = seq<Rule>

  /** No two active rules object to each other. */
  ghost predicate Admitted(rules: Rules) {
    forall i, j :: 0 <= i < j < |rules| && rules[i].active && rules[j].active ==> Objects(rules[i], rules[j]).None?
  }

  /** Two rules that cover a common day before the last day there is have overlapping dates. */
  lemma CommonDayOverlaps(a: Rule, b: Rule, day: Day)
    requires a.Covers(day) && b.Covers(day) && day < MAX_DAY
    ensures OverlappingDates(a, b)
  {
  }

  lemma ObjectionsAreMutual(a: Rule, b: Rule)
    ensures Objects(a, b) == Objects(b, a)
  {
  }

  lemma AdmittedPair(rules: Rules, i: nat, j: nat)
    requires Admitted(rules) && i < |rules| && j < |rules| && i != j && rules[i].active && rules[j].active
    ensures Objects(rules[i], rules[j]).None?
  {
    ObjectionsAreMutual(rules[i], rules[j]);
  }

  // --- Who takes which spend ---------------------------------------------------------------------

  /** A line of usage with its cost allocation tags and cost categories. */
  datatype Line = Line(day: Day, account: AccountId, tags: map<string, string>, categories: map<string, string>)

  predicate Matches(rule: Rule, line: Line) {
    var labels := if rule.ByTag() then line.tags else line.categories;
    rule.key in labels && labels[rule.key] in rule.values
  }

  ghost predicate ClaimedBy(rules: Rules, i: nat, account: AccountId, day: Day) {
    i < |rules| && rules[i].active && rules[i].kind.WholeAccounts? && rules[i].Covers(day) && account in rules[i].accounts
  }

  /** `rule_scope_accounts`: owned, listed if the rule lists accounts, claimed by no whole-account rule. */
  ghost predicate InScope(rules: Rules, i: nat, owned: set<AccountId>, account: AccountId, day: Day)
    requires i < |rules|
  {
    && account in owned
    && (rules[i].UsesAccounts() ==> account in rules[i].accounts)
    && forall j: nat :: j != i ==> !ClaimedBy(rules, j, account, day)
  }

  /** The rule takes the line. A query rule fixes its accounts on the first day of the month window. */
  ghost predicate Takes(rules: Rules, i: nat, owned: set<AccountId>, scopeDay: Day, line: Line)
    requires i < |rules|
  {
    && rules[i].active && rules[i].Covers(line.day)
    && if rules[i].kind.WholeAccounts? then line.account in rules[i].accounts
       else InScope(rules, i, owned, line.account, scopeDay) && Matches(rules[i], line)
  }

  /** A whole-account rule takes every line of its accounts on its days; a query rule takes the lines with
      one of its values, of accounts that were the customer's on the scope day and claimed by no other
      rule, and of the accounts it lists if it lists any. */
  lemma TakesExactly(rules: Rules, i: nat, owned: set<AccountId>, scopeDay: Day, line: Line)
    requires i < |rules|
    ensures
      var rule := rules[i];
      var claimed := exists j: nat :: j != i && ClaimedBy(rules, j, line.account, scopeDay);
      var labels := if rule.kind == Tag || rule.kind == AccountTag then line.tags else line.categories;
      Takes(rules, i, owned, scopeDay, line) <==>
      && rule.active && rule.start <= line.day && (rule.end.Some? ==> line.day < rule.end.value)
      && match rule.kind
         case WholeAccounts => line.account in rule.accounts
         case Tag => line.account in owned && !claimed && rule.key in labels && labels[rule.key] in rule.values
         case Category => line.account in owned && !claimed && rule.key in labels && labels[rule.key] in rule.values
         case AccountTag =>
           line.account in owned && line.account in rule.accounts && !claimed && rule.key in labels && labels[rule.key] in rule.values
         case AccountCategory =>
           line.account in owned && line.account in rule.accounts && !claimed && rule.key in labels && labels[rule.key] in rule.values
  {
    hide ClaimedBy;
  }

  /** On a common day, two whole-account rules share no account, nor does one with a rule that
      lists accounts. */
  lemma AdmittedAccountsDisjoint(a: Rule, b: Rule, day: Day)
    requires Objects(a, b).None? && day < MAX_DAY && a.Covers(day) && b.Covers(day)
    requires b.kind.WholeAccounts? && a.UsesAccounts()
    ensures a.accounts !! b.accounts
  {
    CommonDayOverlaps(a, b, day);
  }

  /** Admission leaves each account and day to at most one whole-account rule. */
  lemma ClaimedOnce(rules: Rules, i: nat, j: nat, account: AccountId, day: Day)
    requires Admitted(rules) && day < MAX_DAY
    requires ClaimedBy(rules, i, account, day) && ClaimedBy(rules, j, account, day)
    ensures i == j
  {
    if i != j {
      AdmittedPair(rules, i, j);
      AdmittedAccountsDisjoint(rules[i], rules[j], day);
    }
  }

  /** A query rule shares a line with a whole-account rule only if it is customer-wide and the
      claim does not cover the day on which the query fixed its accounts. */
  lemma SharedWithClaim(rules: Rules, i: nat, j: nat, owned: set<AccountId>, scopeDay: Day, line: Line)
    requires Admitted(rules) && line.day < MAX_DAY && i < |rules| && j < |rules|
    requires !rules[i].kind.WholeAccounts? && rules[j].kind.WholeAccounts?
    requires Takes(rules, i, owned, scopeDay, line) && Takes(rules, j, owned, scopeDay, line)
    ensures !rules[i].UsesAccounts() && !rules[j].Covers(scopeDay)
  {
    AdmittedPair(rules, i, j);
    assert rules[j].Covers(scopeDay) ==> ClaimedBy(rules, j, line.account, scopeDay);
    if rules[i].UsesAccounts() {
      AdmittedAccountsDisjoint(rules[i], rules[j], line.day);
    }
  }

  /** Two query rules that list an account on the same day have the same key and disjoint
      values, so some line of that account and day belongs to both exactly when one goes by tag
      and the other by cost category: only the key strings are compared. */
  lemma QueryRulesShareExactly(a: Rule, b: Rule, day: Day, account: AccountId)
    requires Objects(a, b).None? && day < MAX_DAY && a.Covers(day) && b.Covers(day)
    requires !a.kind.WholeAccounts? && !b.kind.WholeAccounts? && a.values != {} && b.values != {}
    requires (a.UsesAccounts() ==> account in a.accounts) && (b.UsesAccounts() ==> account in b.accounts)
    ensures a.key == b.key && a.values !! b.values
    ensures a.ByTag() != b.ByTag() <==>
            exists line: Line :: line.day == day && line.account == account && Matches(a, line) && Matches(b, line)
  {
    CommonDayOverlaps(a, b, day);
    var v :| v in a.values;
    var w :| w in b.values;
    var line := if a.ByTag() then Line(day, account, map[a.key := v], map[b.key := w])
                else Line(day, account, map[b.key := w], map[a.key := v]);
    if a.ByTag() != b.ByTag() {
      assert line.day == day && line.account == account && Matches(a, line) && Matches(b, line);
    }
    forall line | Matches(a, line) && Matches(b, line) && a.ByTag() == b.ByTag()
      ensures false
    {
    }
  }

  // --- Nothing is refused without need ---------------------------------------------------------

  /** The rule covers at least one day, and none after the last day there is. */
  predicate Effective(rule: Rule) {
    rule.start < rule.EndOrMax() <= MAX_DAY
  }

  /** The rule may apply to the account on the day, as far as its dates and listed accounts go. */
  predicate Reaches(rule: Rule, account: AccountId, day: Day) {
    rule.Covers(day) && (rule.UsesAccounts() ==> account in rule.accounts)
  }

  ghost predicate Meet(a: Rule, b: Rule) {
    exists account, day :: day < MAX_DAY && Reaches(a, account, day) && Reaches(b, account, day)
  }

  lemma CommonReach(a: Rule, b: Rule)
    requires Effective(a) && Effective(b)
    requires (a.UsesAccounts() ==> a.accounts != {}) && (b.UsesAccounts() ==> b.accounts != {})
    ensures Meet(a, b) <==> OverlappingDates(a, b) && (a.UsesAccounts() && b.UsesAccounts() ==> !(a.accounts !! b.accounts))
  {
    if OverlappingDates(a, b) && (a.UsesAccounts() && b.UsesAccounts() ==> !(a.accounts !! b.accounts)) {
      var day := if a.start < b.start then b.start else a.start;
      var account: AccountId :| (a.UsesAccounts() ==> account in a.accounts) && (b.UsesAccounts() ==> account in b.accounts);
      assert Reaches(a, account, day) && Reaches(b, account, day);
    }
    if Meet(a, b) {
      var account, day :| day < MAX_DAY && Reaches(a, account, day) && Reaches(b, account, day);
      CommonDayOverlaps(a, b, day);
    }
  }

  /** A whole-account rule is refused beside another rule that lists accounts exactly if both would take
      some account on some day, and never beside a customer-wide one. */
  lemma ClaimsObjectExactly(a: Rule, b: Rule)
    requires Effective(a) && Effective(b) && a.kind.WholeAccounts?
    requires a.accounts != {} && (b.UsesAccounts() ==> b.accounts != {})
    ensures Objects(a, b).Some? <==> b.UsesAccounts() && Meet(a, b)
    ensures Objects(a, b).Some? ==> Objects(a, b).value == if b.kind.WholeAccounts? then SharedAccounts else ClaimedAccounts
  {
    CommonReach(a, b);
    hide Meet;
  }

  /** Two query rules are refused exactly if they meet on some account and day and have different keys
      or a common value. With one kind of label that is so exactly if some line belongs to both. */
  lemma QueryRulesObjectExactly(a: Rule, b: Rule)
    requires Effective(a) && Effective(b) && !a.kind.WholeAccounts? && !b.kind.WholeAccounts?
    requires (a.UsesAccounts() ==> a.accounts != {}) && (b.UsesAccounts() ==> b.accounts != {})
    ensures Objects(a, b).Some? <==> Meet(a, b) && (a.key != b.key || !(a.values !! b.values))
    ensures Objects(a, b).Some? ==> Objects(a, b).value == if a.key == b.key then SharedValues else DifferentKey
    ensures a.ByTag() == b.ByTag() && a.values != {} && b.values != {} ==>
              (Objects(a, b).Some? <==>
                 exists line: Line :: line.day < MAX_DAY && Reaches(a, line.account, line.day) && Reaches(b, line.account, line.day)
                                      && Matches(a, line) && Matches(b, line))
  {
    CommonReach(a, b);
    if a.ByTag() == b.ByTag() && a.values != {} && b.values != {} && Objects(a, b).Some? {
      var account, day :| day < MAX_DAY && Reaches(a, account, day) && Reaches(b, account, day);
      var v, w := SomeValues(a, b);
      var labels := map[a.key := v, b.key := w];
      var line := if a.ByTag() then Line(day, account, labels, map[]) else Line(day, account, map[], labels);
      assert Matches(a, line) && Matches(b, line);
    }
    hide SameScope;
  }

  lemma SomeValues(a: Rule, b: Rule) returns (v: string, w: string)
    requires a.values != {} && b.values != {} && (a.key != b.key || !(a.values !! b.values))
    ensures v in a.values && w in b.values && (a.key == b.key ==> v == w)
  {
    if a.key == b.key {
      v :| v in a.values && v in b.values;
      w := v;
    } else {
      v :| v in a.values;
      w :| w in b.values;
    }
  }

  /** Global partition: if the claims in force did not change between the scope day and the
      line's day, and two query rules that both take the line use one kind of label, then no
      line is taken twice. */
  lemma TakenOnce(rules: Rules, i: nat, j: nat, owned: set<AccountId>, scopeDay: Day, line: Line)
    requires Admitted(rules) && line.day < MAX_DAY && i < |rules| && j < |rules|
    requires forall k: nat :: ClaimedBy(rules, k, line.account, line.day) ==> rules[k].Covers(scopeDay)
    requires !rules[i].kind.WholeAccounts? && !rules[j].kind.WholeAccounts? ==> rules[i].ByTag() == rules[j].ByTag()
    requires Takes(rules, i, owned, scopeDay, line) && Takes(rules, j, owned, scopeDay, line)
    ensures i == j
  {
    if i != j {
      AdmittedPair(rules, i, j);
      if rules[i].kind.WholeAccounts? && rules[j].kind.WholeAccounts? {
        ClaimedOnce(rules, i, j, line.account, line.day);
      } else if rules[j].kind.WholeAccounts? {
        assert ClaimedBy(rules, j, line.account, line.day);
        SharedWithClaim(rules, i, j, owned, scopeDay, line);
      } else if rules[i].kind.WholeAccounts? {
        assert ClaimedBy(rules, i, line.account, line.day);
        SharedWithClaim(rules, j, i, owned, scopeDay, line);
      } else {
        QueryRulesShareExactly(rules[i], rules[j], line.day, line.account);
      }
    }
  }

  // --- Retiring a rule -----------------------------------------------------------------------------

  /** `rule_retire`, given the first day of the current month. */
  function Retired(rule: Rule, monthStart: Day): Rule {
    if rule.start >= monthStart then rule.(active := false) else rule.(end := Some(monthStart))
  }

  /** Retiring takes days from a rule and gives it none, exactly unless the rule had already
      ended before this month: then its end moves forward. */
  lemma RetiringShortensExactly(rule: Rule, monthStart: Day)
    requires rule.active && (rule.end.Some? ==> rule.start < rule.end.value)
    ensures (rule.start >= monthStart || rule.end.None? || monthStart <= rule.end.value) <==>
            forall day :: Retired(rule, monthStart).active && Retired(rule, monthStart).Covers(day) ==> rule.Covers(day)
  {
    if rule.start < monthStart && rule.end.Some? && rule.end.value < monthStart {
      assert Retired(rule, monthStart).Covers(rule.end.value);
    }
  }

  /** A retired rule takes nothing from this month on and keeps every earlier day it covered. */
  lemma RetiredKeepsHistory(rule: Rule, monthStart: Day, day: Day)
    requires rule.active
    ensures
      var after := Retired(rule, monthStart);
      && (after.active && after.Covers(day) ==> day < monthStart)
      && (rule.Covers(day) && day < monthStart ==> after.active && after.Covers(day))
      && after == rule.(active := after.active, end := after.end)
  {
  }

  /** Shortening a rule keeps the book admitted. */
  lemma ShorteningKeepsAdmitted(rules: Rules, i: nat, monthStart: Day)
    requires Admitted(rules) && i < |rules| && monthStart <= MAX_DAY
    requires rules[i].start >= monthStart || rules[i].end.None? || monthStart <= rules[i].end.value
    ensures Admitted(rules[i := Retired(rules[i], monthStart)])
  {
  }

  /** A whole-account rule that had ended before this month and is retired then claims an account
      together with another rule exactly when that one claims an account of the rule on a day
      between the old end and this month. */
  lemma RetiringDoubleClaimsExactly(rules: Rules, i: nat, j: nat, monthStart: Day)
    requires Admitted(rules) && i < |rules| && j < |rules| && i != j && monthStart <= MAX_DAY
    requires rules[i].active && rules[i].kind.WholeAccounts? && rules[i].end.Some?
    requires rules[i].start < rules[i].end.value < monthStart
    ensures
      var after := rules[i := Retired(rules[i], monthStart)];
      (exists account, day :: ClaimedBy(after, i, account, day) && ClaimedBy(after, j, account, day)) <==>
      (exists account, day :: account in rules[i].accounts && rules[i].end.value <= day < monthStart && ClaimedBy(rules, j, account, day))
  {
    var after := rules[i := Retired(rules[i], monthStart)];
    if account, day :| ClaimedBy(after, i, account, day) && ClaimedBy(after, j, account, day) {
      assert ClaimedBy(rules, j, account, day);
      if day < rules[i].end.value {
        assert ClaimedBy(rules, i, account, day);
        ClaimedOnce(rules, i, j, account, day);
      }
    }
    if account, day :| account in rules[i].accounts && rules[i].end.value <= day < monthStart && ClaimedBy(rules, j, account, day) {
      assert ClaimedBy(after, i, account, day) && ClaimedBy(after, j, account, day);
    }
  }

  /** Such a book: the successor takes over on the day the first rule ends. */
  lemma RetiringCanDoubleClaim(monthStart: Day) returns (rules: Rules)
    requires EPOCH + 2 <= monthStart < MAX_DAY
    ensures Admitted(rules) && |rules| == 2
    ensures ClaimedBy(rules[0 := Retired(rules[0], monthStart)], 0, "111111111111", monthStart - 1)
    ensures ClaimedBy(rules[0 := Retired(rules[0], monthStart)], 1, "111111111111", monthStart - 1)
  {
    rules := [Rule(0, WholeAccounts, {"111111111111"}, "", {}, EPOCH, Some(monthStart - 1), true),
              Rule(1, WholeAccounts, {"111111111111"}, "", {}, monthStart - 1, None, true)];
  }

  // --- Allocation from facts -------------------------------------------------------------------------

  /** The unique key of a project cost row. */
  datatype Share = Share(rule: nat, source: SourceId, day: Day, account: AccountId, currency: string)

  type Shares = map<Share, Amounts>

  predicate Mine(costs: Costs, customer: CustomerId, s: Slice) {
    s in costs && costs[s].customer == Some(customer)
  }

  function ShareOf(i: nat, s: Slice): Share {
    Share(i, s.source, s.day, s.account, s.currency)
  }

  /** The facts of the customer that are grouped into one row. */
  ghost function Group(costs: Costs, customer: CustomerId, k: Share): set<Slice> {
    set s | s in costs && Mine(costs, customer, s) && ShareOf(k.rule, s) == k
  }

  ghost function GroupAmounts(costs: Costs, customer: CustomerId, k: Share): Amounts {
    Amounts(Total(costs, Unblended, Group(costs, customer, k)), Total(costs, Amortized, Group(costs, customer, k)))
  }

  /** The rows of one whole-account rule on one day are what the facts say today. */
  ghost predicate Fresh(rules: Rules, costs: Costs, customer: CustomerId, shares: Shares, i: nat, day: Day)
    requires i < |rules|
  {
    forall k: Share :: k.rule == i && k.day == day ==>
      && (k in shares <==> rules[i].Covers(day) && k.account in rules[i].accounts && Group(costs, customer, k) != {})
      && (k in shares ==> shares[k] == GroupAmounts(costs, customer, k))
  }

  /** The facts a whole-account rule aggregates in a window. */
  function RuleFacts(rule: Rule, costs: Costs, customer: CustomerId, first: Day, last: Day): set<Slice> {
    set s | s in costs && Mine(costs, customer, s) && s.account in rule.accounts && first <= s.day < last
  }

  lemma GroupGrows(rule: Rule, costs: Costs, customer: CustomerId, i: nat, first: Day, last: Day, todo: set<Slice>, s: Slice, k: Share, metric: Metric)
    requires s in todo && todo <= RuleFacts(rule, costs, customer, first, last)
    ensures
      var before, after := Group(costs, customer, k) - todo, Group(costs, customer, k) - (todo - {s});
      Total(costs, metric, after) == Total(costs, metric, before) + if k == ShareOf(k.rule, s) then AmountOf(costs, metric)(s) else 0
  {
    var before, after := Group(costs, customer, k) - todo, Group(costs, customer, k) - (todo - {s});
    if k == ShareOf(k.rule, s) {
      assert s in after && after - {s} == before;
      Sums.SumRemove(after, AmountOf(costs, metric), s);
    } else {
      assert after == before;
    }
  }

  /** The rows grouped so far: the totals of the facts that are done. */
  ghost predicate Grouped(rule: Rule, costs: Costs, customer: CustomerId, i: nat, done: set<Slice>, todo: set<Slice>, rows: Shares) {
    && (forall k :: k in rows <==> exists s :: s in done && ShareOf(i, s) == k)
    && (forall k :: k in rows ==>
          rows[k] == Amounts(Total(costs, Unblended, Group(costs, customer, k) - todo),
                             Total(costs, Amortized, Group(costs, customer, k) - todo)))
  }

  lemma GroupNext(rule: Rule, costs: Costs, customer: CustomerId, i: nat, first: Day, last: Day, todo: set<Slice>, s: Slice, rows: Shares)
    requires s in todo && todo <= RuleFacts(rule, costs, customer, first, last)
    requires Grouped(rule, costs, customer, i, RuleFacts(rule, costs, customer, first, last) - todo, todo, rows)
    ensures
      var k := ShareOf(i, s);
      var sofar := if k in rows then rows[k] else Amounts(0, 0);
      var amounts := Amounts(sofar.unblended + costs[s].amounts.unblended, sofar.amortized + costs[s].amounts.amortized);
      Grouped(rule, costs, customer, i, RuleFacts(rule, costs, customer, first, last) - (todo - {s}), todo - {s}, rows[k := amounts])
  {
    var facts, k := RuleFacts(rule, costs, customer, first, last), ShareOf(i, s);
    var sofar := if k in rows then rows[k] else Amounts(0, 0);
    var amounts := Amounts(sofar.unblended + costs[s].amounts.unblended, sofar.amortized + costs[s].amounts.amortized);
    var next := rows[k := amounts];
    forall h | h in next
      ensures next[h] == Amounts(Total(costs, Unblended, Group(costs, customer, h) - (todo - {s})),
                                 Total(costs, Amortized, Group(costs, customer, h) - (todo - {s})))
    {
      GroupGrows(rule, costs, customer, i, first, last, todo, s, h, Unblended);
      GroupGrows(rule, costs, customer, i, first, last, todo, s, h, Amortized);
      if h !in rows {
        assert Group(costs, customer, h) - todo == {} by {
          forall t | t in Group(costs, customer, h)
            ensures t in todo
          {
            assert t in facts;
          }
        }
      }
    }
    forall h
      ensures h in next <==> exists t :: t in facts - (todo - {s}) && ShareOf(i, t) == h
    {
      if h in rows {
        var t :| t in facts - todo && ShareOf(i, t) == h;
        assert t in facts - (todo - {s});
      }
      if h == k {
        assert s in facts - (todo - {s});
      }
    }
  }

  lemma GroupsOfFacts(rule: Rule, costs: Costs, customer: CustomerId, i: nat, first: Day, last: Day, rows: Shares)
    requires forall k :: k in rows <==> exists s :: s in RuleFacts(rule, costs, customer, first, last) && ShareOf(i, s) == k
    ensures forall k :: k in rows <==>
              k.rule == i && first <= k.day < last && k.account in rule.accounts && Group(costs, customer, k) != {}
  {
    var facts := RuleFacts(rule, costs, customer, first, last);
    forall k
      ensures k in rows <==> k.rule == i && first <= k.day < last && k.account in rule.accounts && Group(costs, customer, k) != {}
    {
      if k in rows {
        var s :| s in facts && ShareOf(i, s) == k;
        assert s in Group(costs, customer, k);
      }
      if k.rule == i && first <= k.day < last && k.account in rule.accounts && Group(costs, customer, k) != {} {
        var s :| s in Group(costs, customer, k);
        assert s in facts && ShareOf(i, s) == k;
      }
    }
  }

  /** `allocate_accounts_rule`: group the facts of the rule's accounts in a window. */
  method AllocateAccountsRule(rule: Rule, i: nat, costs: Costs, customer: CustomerId, first: Day, last: Day) returns (rows: Shares)
    ensures forall k :: k in rows <==>
              k.rule == i && first <= k.day < last && k.account in rule.accounts && Group(costs, customer, k) != {}
    ensures forall k :: k in rows ==> rows[k] == GroupAmounts(costs, customer, k)
  {
    var facts := RuleFacts(rule, costs, customer, first, last);
    var todo := facts;
    rows := map[];
    while todo != {}
      invariant todo <= facts && Grouped(rule, costs, customer, i, facts - todo, todo, rows)
    {
      hide Grouped, RuleFacts;
      var s :| s in todo;
      var k := ShareOf(i, s);
      var sofar := if k in rows then rows[k] else Amounts(0, 0);
      GroupNext(rule, costs, customer, i, first, last, todo, s, rows);
      rows := rows[k := Amounts(sofar.unblended + costs[s].amounts.unblended, sofar.amortized + costs[s].amounts.amortized)];
      todo := todo - {s};
    }
    GroupsOfFacts(rule, costs, customer, i, first, last, rows);
    assert forall k :: Group(costs, customer, k) - {} == Group(costs, customer, k);
  }
}
