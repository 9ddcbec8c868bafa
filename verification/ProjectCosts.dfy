/** Project cost rows: recomputed per rule and month from facts or scoped queries, and
    reconciled with what the customer spent. */
module ProjectCosts {
  import opened Options
  import opened Ownership
  import opened Allocation
  import Calendar
  import Sums

  type Month = Calendar.Month

  predicate InMonth(day: Day, m: Month) {
    Calendar.MonthStart(m) <= day < Calendar.MonthStart(m + 1)
  }

  lemma MonthsDisjoint(day: Day, a: Month, b: Month)
    requires InMonth(day, a) && InMonth(day, b)
    ensures a == b
  {
    hide Calendar.MonthStart;
    if a < b {
      Calendar.MonthsOrdered(a + 1, b);
    } else if b < a {
      Calendar.MonthsOrdered(b + 1, a);
    }
  }

  function Lookup(shares: Shares, k: Share): Option<Amounts> {
    if k in shares then Some(shares[k]) else None
  }

  function Max(a: Day, b: Day): Day { if a < b then b else a }

  function Min(a: Day, b: Day): Day { if a < b then a else b }

  /** The part of a month a rule covers, as `rule_months` yields it. */
  function Window(rule: Rule, m: Month): Option<(Day, Day)> {
    var first, last := Calendar.MonthStart(m), Calendar.MonthStart(m + 1);
    if rule.start < last && (rule.end.None? || rule.end.value > first) then
      Some((Max(first, rule.start), Min(last, if rule.end.Some? then rule.end.value else last)))
    else None
  }

  lemma WindowIsCoveredPart(rule: Rule, m: Month, day: Day)
    requires InMonth(day, m)
    ensures rule.Covers(day) <==> Window(rule, m).Some? && Window(rule, m).value.0 <= day < Window(rule, m).value.1
  {
    hide Calendar.MonthStart;
  }

  /** A rule has a window in a month exactly if it covers a day of it; the window lies in the month. */
  lemma WindowExactly(rule: Rule, m: Month)
    requires rule.end.Some? ==> rule.start < rule.end.value
    ensures Window(rule, m).Some? <==> exists day :: InMonth(day, m) && rule.Covers(day)
    ensures Window(rule, m).Some? ==>
              Calendar.MonthStart(m) <= Window(rule, m).value.0 < Window(rule, m).value.1 <= Calendar.MonthStart(m + 1)
  {
    Calendar.MonthsAdjacent(m);
    hide Calendar.MonthStart;
    if Window(rule, m).Some? {
      var day := Window(rule, m).value.0;
      assert InMonth(day, m) && rule.Covers(day);
    }
  }

  /** What the scoped queries of a rule return for a window: rows, and whether every source had data. */
  datatype Reply = Reply(rows: Shares, complete: bool)

  type Queries = (nat, Day, Day) -> Reply

  /** `allocate_query_rule` asks nothing about days after today. */
  function QueryReply(queries: Queries, i: nat, first: Day, last: Day, today: Day): Reply {
    var end := Min(last, today + 1);
    if first >= end then Reply(map[], true) else queries(i, first, end)
  }

  /** No query covers a day after today, and none is made for a window that starts later. */
  lemma QueriesEndToday(queries: Queries, i: nat, first: Day, last: Day, today: Day)
    requires first < last
    ensures QueryReply(queries, i, first, last, today) ==
            if today < first then Reply(map[], true)
            else if last <= today then queries(i, first, last)
            else queries(i, first, today + 1)
  {
  }

  /** The row a rule must have after a run: none where it does not cover, the grouped facts for a
      whole-account rule, the query's rows otherwise, and the old row while there is no answer. */
  ghost function Target(rules: Rules, costs: Costs, customer: CustomerId, queries: Queries, today: Day, before: Shares, m: Month, k: Share):
    Option<Amounts>
    requires k.rule < |rules|
  {
    var rule := rules[k.rule];
    if !rule.Covers(k.day) || Window(rule, m).None? then None
    else if rule.kind.WholeAccounts? then
      if k.account in rule.accounts && Group(costs, customer, k) != {} then Some(GroupAmounts(costs, customer, k)) else None
    else
      var reply := QueryReply(queries, k.rule, Window(rule, m).value.0, Window(rule, m).value.1, today);
      if !reply.complete && reply.rows == map[] then Lookup(before, k) else Lookup(reply.rows, k)
  }

  /** A query returned a row on a day that its window does not have: outside the month, not covered
      by the rule, or after today. */
  ghost predicate Strays(rules: Rules, i: nat, queries: Queries, today: Day, m: Month)
    requires i < |rules|
  {
    && !rules[i].kind.WholeAccounts? && Window(rules[i], m).Some?
    && exists k :: k in QueryReply(queries, i, Window(rules[i], m).value.0, Window(rules[i], m).value.1, today).rows
                   && !(InMonth(k.day, m) && rules[i].Covers(k.day) && k.day <= today)
  }

  class Book {
    var rules: Rules
    var costs: Costs
    var shares: Shares
    const customer: CustomerId

    /** The active rules were admitted, and every row belongs to a rule of the book. */
    ghost predicate Valid()
      reads this
    {
      Admitted(rules) && RowsKnown(rules, shares)
    }

    constructor (customer: CustomerId)
      ensures Valid() && rules == [] && costs == map[] && shares == map[] && this.customer == customer
    {
      rules, costs, shares := [], map[], map[];
      this.customer := customer;
    }

    /** `validate_rule` and save: `owned` are the accounts the customer owns now or owned at the
        start of the rule, `approved` the outcome of the tag approval check. */
    method AddRule(rule: Rule, owned: set<AccountId>, approved: bool) returns (added: bool)
      requires Valid()
      modifies this`rules
      ensures Valid()
      ensures rules == if added then old(rules) + [rule] else old(rules)
      ensures added <==>
              && (rule.ByTag() ==> approved)
              && (rule.UsesAccounts() ==> rule.accounts <= owned)
              && forall i :: 0 <= i < |old(rules)| && old(rules)[i].active ==> Objects(rule, old(rules)[i]).None?
    {
      if rule.ByTag() && !approved {
        return false;
      }
      if rule.UsesAccounts() && !(rule.accounts <= owned) {
        return false;
      }
      for i := 0 to |rules|
        invariant forall j :: 0 <= j < i && rules[j].active ==> Objects(rule, rules[j]).None?
      {
        if rules[i].active && Objects(rule, rules[i]).Some? {
          return false;
        }
      }
      forall i | 0 <= i < |rules| && rules[i].active
        ensures Objects(rules[i], rule).None?
      {
        ObjectionsAreMutual(rule, rules[i]);
      }
      rules := rules + [rule];
      added := true;
    }

    /** Delete the rows of a rule on the days of a month it no longer covers. */
    method DropStale(i: nat, m: Month)
      requires i < |rules|
      modifies this`shares
      ensures forall k: Share :: Lookup(shares, k) ==
                          if k.rule == i && InMonth(k.day, m) && !rules[i].Covers(k.day) then None else Lookup(old(shares), k)
    {
      hide Calendar.MonthStart;
      var first, last, rule := Calendar.MonthStart(m), Calendar.MonthStart(m + 1), rules[i];
      if rule.end.Some? && rule.end.value < last {
        shares := map k | k in shares && !(k.rule == i && first <= k.day < last && k.day >= rule.end.value) :: shares[k];
      }
      if rule.start > first {
        shares := map k | k in shares && !(k.rule == i && first <= k.day < last && k.day < rule.start) :: shares[k];
      }
    }

    /** Atomically replace the rows of a rule in a window. */
    method ReplaceRows(i: nat, first: Day, last: Day, rows: Shares)
      requires forall k :: k in rows ==> k.rule == i && first <= k.day < last
      modifies this`shares
      ensures forall k: Share :: Lookup(shares, k) ==
                          if k.rule == i && first <= k.day < last then Lookup(rows, k) else Lookup(old(shares), k)
    {
      shares := (map k | k in shares && !(k.rule == i && first <= k.day < last) :: shares[k]) + rows;
    }

    /** Recompute the window of one rule in one month. A query row outside the window is an error. */
    method AllocateMonth(i: nat, m: Month, queries: Queries, today: Day) returns (ok: bool)
      requires i < |rules|
      requires forall f, l, k :: k in queries(i, f, l).rows ==> k.rule == i
      requires forall k :: k in shares && k.rule == i && InMonth(k.day, m) ==> rules[i].Covers(k.day)
      modifies this`shares
      ensures forall k: Share :: k.rule != i || !InMonth(k.day, m) ==> Lookup(shares, k) == Lookup(old(shares), k)
      ensures ok ==> forall k: Share :: k.rule == i && InMonth(k.day, m) ==>
                                 Lookup(shares, k) == Target(rules, costs, customer, queries, today, old(shares), m, k)
      ensures ok <==> !Strays(rules, i, queries, today, m)
      ensures !ok ==> shares == old(shares)
    {
      hide Calendar.MonthStart, Group, GroupAmounts;
      var window := Window(rules[i], m);
      forall k: Share | k.rule == i && InMonth(k.day, m)
        ensures rules[i].Covers(k.day) <==> window.Some? && window.value.0 <= k.day < window.value.1
      {
        WindowIsCoveredPart(rules[i], m, k.day);
      }
      if window.None? {
        return true;
      }
      var first, last := window.value.0, window.value.1;
      if rules[i].kind.WholeAccounts? {
        var rows := AllocateAccountsRule(rules[i], i, costs, customer, first, last);
        ReplaceRows(i, first, last, rows);
      } else {
        var reply := QueryReply(queries, i, first, last, today);
        if exists k :: k in reply.rows && !(first <= k.day < Min(last, today + 1)) {
          return false;
        }
        if reply.complete || reply.rows != map[] {
          ReplaceRows(i, first, last, reply.rows);
        }
      }
      ok := true;
    }

    /** All months of one rule: first drop what it no longer covers, then recompute. */
    method AllocateRule(i: nat, months: seq<Month>, queries: Queries, today: Day) returns (ok: bool)
      requires i < |rules|
      requires forall j, f, l, k :: k in queries(j, f, l).rows ==> k.rule == j
      modifies this`shares
      ensures forall k: Share :: k.rule != i || !InMonths(k.day, months) ==> Lookup(shares, k) == Lookup(old(shares), k)
      ensures ok ==> Recomputed(rules, costs, customer, queries, today, old(shares), shares, i, months, |months|)
      ensures ok <==> forall m :: m in months ==> !Strays(rules, i, queries, today, m)
    {
      hide Target, InMonth, Lookup, Strays;
      ghost var before := shares;
      for n := 0 to |months|
        invariant forall k: Share :: Lookup(shares, k) ==
                    if k.rule == i && InMonths(k.day, months[..n]) && !rules[i].Covers(k.day) then None else Lookup(before, k)
      {
        DropStale(i, months[n]);
        InMonthsNext(months, n);
      }
      assert months[..|months|] == months;
      for n := 0 to |months|
        invariant forall k: Share :: k.rule != i || !InMonths(k.day, months) ==> Lookup(shares, k) == Lookup(before, k)
        invariant Recomputed(rules, costs, customer, queries, today, before, shares, i, months, n)
        invariant Waiting(rules, before, shares, i, months, n)
        invariant forall m :: m in months[..n] ==> !Strays(rules, i, queries, today, m)
      {
        ghost var at := shares;
        RowsBefore(rules, costs, customer, queries, today, before, at, i, months, n);
        var done := AllocateMonth(i, months[n], queries, today);
        InMonthsNext(months, n);
        InSomeMonth(months, n);
        if !done {
          return false;
        }
        RowsAfter(rules, costs, customer, queries, today, before, at, shares, i, months, n);
      }
      ok := true;
    }

    /** Recompute a project; rows of its inactive rules go. An error of one rule ends the run. */
    method AllocateProject(project: ProjectId, months: seq<Month>, queries: Queries, today: Day) returns (ok: bool)
      requires RowsKnown(rules, shares) && forall j, f, l, k :: k in queries(j, f, l).rows ==> k.rule == j
      modifies this`shares
      ensures RowsKnown(rules, shares)
      ensures forall k: Share :: !OfProject(rules, project, k) || (rules[k.rule].active && !InMonths(k.day, months)) ==>
                Lookup(shares, k) == Lookup(old(shares), k)
      ensures ok ==> forall i: nat :: i < |rules| && rules[i].project == project && rules[i].active ==>
                Recomputed(rules, costs, customer, queries, today, old(shares), shares, i, months, |months|)
      ensures ok ==> forall k :: k in shares && OfProject(rules, project, k) ==> rules[k.rule].active
      ensures ok <==> forall i: nat, m :: i < |rules| && rules[i].project == project && rules[i].active && m in months ==>
                        !Strays(rules, i, queries, today, m)
    {
      hide Target, InMonth, InMonths, Recomputed, Strays;
      for i := 0 to |rules|
        invariant RowsKnown(rules, shares)
        invariant forall k: Share :: !OfProject(rules, project, k) || k.rule >= i || !rules[k.rule].active || !InMonths(k.day, months) ==>
                    Lookup(shares, k) == Lookup(old(shares), k)
        invariant forall j: nat :: j < i && rules[j].project == project && rules[j].active ==>
                    Recomputed(rules, costs, customer, queries, today, old(shares), shares, j, months, |months|)
        invariant forall j: nat, m :: j < i && rules[j].project == project && rules[j].active && m in months ==>
                    !Strays(rules, j, queries, today, m)
      {
        if rules[i].project == project && rules[i].active {
          ghost var at := shares;
          var done := AllocateRule(i, months, queries, today);
          SameKnown(rules, at, shares, i);
          if !done {
            return false;
          }
          SameRecomputed(rules, costs, customer, queries, today, at, old(shares), shares, shares, i, months);
          forall j: nat | j < i && rules[j].project == project && rules[j].active
            ensures Recomputed(rules, costs, customer, queries, today, old(shares), shares, j, months, |months|)
          {
            SameRecomputed(rules, costs, customer, queries, today, old(shares), old(shares), at, shares, j, months);
          }
        }
      }
      ghost var at := shares;
      shares := map k | k in shares && !(OfProject(rules, project, k) && !rules[k.rule].active) :: shares[k];
      forall j: nat | j < |rules| && rules[j].project == project && rules[j].active
        ensures Recomputed(rules, costs, customer, queries, today, old(shares), shares, j, months, |months|)
      {
        SameRecomputed(rules, costs, customer, queries, today, old(shares), old(shares), at, shares, j, months);
      }
      ok := true;
    }

    /** `rule_retire`: end the rule with the previous month and recompute its project for this
        month and the one before. The book stays admitted unless the rule had ended earlier. */
    method RetireRule(i: nat, month: Month, queries: Queries, today: Day) returns (ok: bool)
      requires Valid() && i < |rules| && Calendar.MonthStart(month) <= MAX_DAY
      requires forall j, f, l, k :: k in queries(j, f, l).rows ==> k.rule == j
      modifies this`rules, this`shares
      ensures rules == old(rules)[i := Retired(old(rules)[i], Calendar.MonthStart(month))]
      ensures old(rules)[i].start >= Calendar.MonthStart(month) || old(rules)[i].end.None? || Calendar.MonthStart(month) <= old(rules)[i].end.value ==>
                Valid()
      ensures RowsKnown(rules, shares)
      // No row of the rule is left on a day of the two months that it no longer covers.
      ensures ok ==> forall k :: k in shares && k.rule == i && InMonths(k.day, [month, month - 1]) ==>
                                 rules[i].active && rules[i].Covers(k.day)
      ensures forall k: Share :: !OfProject(rules, rules[i].project, k) ==> Lookup(shares, k) == Lookup(old(shares), k)
    {
      hide Admitted, Group, GroupAmounts, QueryReply, InMonth, Window, Calendar.MonthStart;
      ghost var monthStart := Calendar.MonthStart(month);
      if rules[i].start >= monthStart || rules[i].end.None? || monthStart <= rules[i].end.value {
        ShorteningKeepsAdmitted(rules, i, monthStart);
      }
      rules := rules[i := Retired(rules[i], Calendar.MonthStart(month))];
      ok := AllocateProject(rules[i].project, [month, month - 1], queries, today);
    }

    /** Recompute the projects in turn; a project that fails does not stop the others. With
        whole-account rules only, every rule of the listed projects is fresh on every day of the
        months, and no row of an inactive rule is left. */
    method AllocateAll(projects: seq<ProjectId>, months: seq<Month>, queries: Queries, today: Day) returns (count: nat)
      requires Valid() && forall j, f, l, k :: k in queries(j, f, l).rows ==> k.rule == j
      modifies this`shares
      ensures Valid() && count <= |projects|
      ensures (forall i :: 0 <= i < |rules| && rules[i].active ==> rules[i].kind.WholeAccounts?) ==>
                && count == |projects|
                && (forall i: nat, day :: i < |rules| && rules[i].active && rules[i].project in projects && InMonths(day, months) ==>
                      Fresh(rules, costs, customer, shares, i, day))
                && (forall k :: k in shares && k.rule < |rules| && rules[k.rule].project in projects ==> rules[k.rule].active)
      // When these are the projects of all rules, every range within the months is up to date.
      ensures (forall i :: 0 <= i < |rules| ==> (rules[i].active ==> rules[i].kind.WholeAccounts?) && rules[i].project in projects) ==>
                forall range :: Within(range, months) ==> UpToDate(rules, costs, customer, shares, range)
    {
      count := 0;
      ghost var whole := forall i :: 0 <= i < |rules| && rules[i].active ==> rules[i].kind.WholeAccounts?;
      hide InMonths, Fresh, Group, GroupAmounts, Admitted;
      for n := 0 to |projects|
        invariant Valid()
        invariant count <= n && (whole ==> count == n)
        invariant whole ==> forall i: nat, day :: i < |rules| && rules[i].active && rules[i].project in projects[..n] && InMonths(day, months) ==>
                              Fresh(rules, costs, customer, shares, i, day)
        invariant whole ==> forall k :: k in shares && k.rule < |rules| && rules[k.rule].project in projects[..n] ==> rules[k.rule].active
      {
        assert projects[..n + 1] == projects[..n] + [projects[n]];
        ghost var at := shares;
        var done := AllocateProject(projects[n], months, queries, today);
        if done {
          count := count + 1;
        }
        if whole {
          forall i: nat, day | i < |rules| && rules[i].active && rules[i].project in projects[..n + 1] && InMonths(day, months)
            ensures Fresh(rules, costs, customer, shares, i, day)
          {
            if rules[i].project == projects[n] {
              RecomputedIsFresh(rules, costs, customer, queries, today, at, shares, i, months, day);
            } else {
              SameFresh(rules, costs, customer, at, shares, i, day);
            }
          }
        }
      }
      assert projects[..|projects|] == projects;
    }

    /** A full run over all projects, then reconciliation of a range it covered: what remains is
        exactly the spend that no rule claims. */
    method AllocateAndReconcile(projects: seq<ProjectId>, months: seq<Month>, queries: Queries, today: Day, range: Range, metric: Metric)
      returns (total: Option<int>, granted: Option<int>, remainder: Option<int>)
      requires Valid() && forall j, f, l, k :: k in queries(j, f, l).rows ==> k.rule == j
      requires forall i, j :: 0 <= i < j < |projects| ==> projects[i] != projects[j]
      requires forall i :: 0 <= i < |rules| ==> (rules[i].active ==> rules[i].kind.WholeAccounts?) && rules[i].project in projects
      requires Within(range, months) && range.end < MAX_DAY
      modifies this`shares
      ensures Valid() && UpToDate(rules, costs, customer, shares, range)
      ensures total.Some? <==> Spend(costs, customer, range) != {}
      ensures total.Some? ==>
                && remainder == Some(Total(costs, metric, Unclaimed(rules, costs, customer, range)))
                && total.value == Total(costs, metric, Spend(costs, customer, range))
                && (granted.Some? ==> granted.value + remainder.value == total.value)
    {
      hide UpToDate, Spend, Unclaimed, Within;
      var _ := AllocateAll(projects, months, queries, today);
      total, granted, remainder := Reconcile(rules, costs, customer, shares, projects, range, metric);
    }
  }

  /** Every row belongs to a rule of the book. */
  ghost predicate RowsKnown(rules: Rules, shares: Shares) {
    forall k :: k in shares ==> k.rule < |rules|
  }

  lemma SameKnown(rules: Rules, before: Shares, after: Shares, i: nat)
    requires RowsKnown(rules, before) && i < |rules|
    requires forall k: Share :: k.rule != i ==> Lookup(after, k) == Lookup(before, k)
    ensures RowsKnown(rules, after)
  {
    forall k | k in after && k.rule != i
      ensures k in before
    {
      assert Lookup(after, k) == Lookup(before, k);
    }
  }

  /** Every day of the range lies in one of the months. */
  ghost predicate Within(range: Range, months: seq<Month>) {
    forall day :: range.start <= day <= range.end ==> InMonths(day, months)
  }

  predicate OfProject(rules: Rules, project: ProjectId, k: Share) {
    k.rule < |rules| && rules[k.rule].project == project
  }

  /** Targets of a rule depend on its own rows only. */
  lemma SameRecomputed(rules: Rules, costs: Costs, customer: CustomerId, queries: Queries, today: Day,
                       before: Shares, before': Shares, shares: Shares, shares': Shares, i: nat, months: seq<Month>)
    requires i < |rules| && Recomputed(rules, costs, customer, queries, today, before, shares, i, months, |months|)
    requires forall k: Share :: k.rule == i ==> Lookup(before, k) == Lookup(before', k) && Lookup(shares, k) == Lookup(shares', k)
    ensures Recomputed(rules, costs, customer, queries, today, before', shares', i, months, |months|)
  {
    hide Window, InMonth, Group, GroupAmounts, QueryReply;
  }

  lemma RecomputedIsFresh(rules: Rules, costs: Costs, customer: CustomerId, queries: Queries, today: Day,
                          before: Shares, shares: Shares, i: nat, months: seq<Month>, day: Day)
    requires i < |rules| && rules[i].kind.WholeAccounts? && InMonths(day, months)
    requires Recomputed(rules, costs, customer, queries, today, before, shares, i, months, |months|)
    ensures Fresh(rules, costs, customer, shares, i, day)
  {
    var m :| m in months && InMonth(day, m);
    var j :| 0 <= j < |months| && months[j] == m;
    WindowIsCoveredPart(rules[i], m, day);
    hide Window, Group, GroupAmounts, InMonth;
    forall k: Share | k.rule == i && k.day == day
      ensures Lookup(shares, k) == Target(rules, costs, customer, queries, today, before, months[j], k)
    {
    }
  }

  lemma SameFresh(rules: Rules, costs: Costs, customer: CustomerId, before: Shares, after: Shares, i: nat, day: Day)
    requires i < |rules| && Fresh(rules, costs, customer, before, i, day)
    requires forall k: Share :: k.rule == i ==> Lookup(before, k) == Lookup(after, k)
    ensures Fresh(rules, costs, customer, after, i, day)
  {
    hide Group, GroupAmounts;
    forall k: Share | k.rule == i && k.day == day
      ensures k in after <==> k in before
      ensures k in after ==> after[k] == before[k]
    {
      assert Lookup(before, k) == Lookup(after, k);
    }
  }

  ghost predicate InMonths(day: Day, months: seq<Month>) {
    exists m :: m in months && InMonth(day, m)
  }

  lemma InMonthsNext(months: seq<Month>, n: nat)
    requires n < |months|
    ensures forall day :: InMonths(day, months[..n + 1]) <==> InMonths(day, months[..n]) || InMonth(day, months[n])
  {
    hide InMonth;
    assert months[..n + 1] == months[..n] + [months[n]];
  }

  /** After the first `n` months every row of the rule in them is its target. */
  ghost predicate Recomputed(rules: Rules, costs: Costs, customer: CustomerId, queries: Queries, today: Day,
                             before: Shares, shares: Shares, i: nat, months: seq<Month>, n: nat)
    requires i < |rules| && n <= |months|
  {
    forall j, k: Share :: 0 <= j < n && k.rule == i && InMonth(k.day, months[j]) ==>
      Lookup(shares, k) == Target(rules, costs, customer, queries, today, before, months[j], k)
  }

  lemma InSomeMonth(months: seq<Month>, n: nat)
    requires n < |months|
    ensures forall day :: InMonth(day, months[n]) ==> InMonths(day, months)
  {
    assert months[n] in months;
  }

  /** Rows still to be recomputed are the covered ones of before the run. */
  ghost predicate Waiting(rules: Rules, before: Shares, shares: Shares, i: nat, months: seq<Month>, n: nat)
    requires i < |rules| && n <= |months|
  {
    forall k: Share :: k.rule == i && InMonths(k.day, months) && !InMonths(k.day, months[..n]) ==>
      Lookup(shares, k) == if rules[i].Covers(k.day) then Lookup(before, k) else None
  }

  /** Recomputing a month does not depend on what an earlier pass left in it. */
  lemma RowsBefore(rules: Rules, costs: Costs, customer: CustomerId, queries: Queries, today: Day,
                   before: Shares, at: Shares, i: nat, months: seq<Month>, n: nat)
    requires i < |rules| && n < |months|
    requires Recomputed(rules, costs, customer, queries, today, before, at, i, months, n) && Waiting(rules, before, at, i, months, n)
    ensures forall k: Share :: k.rule == i && InMonth(k.day, months[n]) ==>
              && (k in at ==> rules[i].Covers(k.day))
              && Target(rules, costs, customer, queries, today, at, months[n], k) == Target(rules, costs, customer, queries, today, before, months[n], k)
  {
    InSomeMonth(months, n);
    forall k: Share | k.rule == i && InMonth(k.day, months[n])
      ensures (k in at ==> rules[i].Covers(k.day))
      ensures Target(rules, costs, customer, queries, today, at, months[n], k) == Target(rules, costs, customer, queries, today, before, months[n], k)
    {
      if InMonths(k.day, months[..n]) {
        var m :| m in months[..n] && InMonth(k.day, m);
        MonthsDisjoint(k.day, m, months[n]);
        var j :| 0 <= j < n && months[j] == m;
        assert Lookup(at, k) == Target(rules, costs, customer, queries, today, before, months[j], k);
      }
      hide InMonths, InMonth, Window, Group, GroupAmounts, QueryReply;
    }
  }

  lemma RowsAfter(rules: Rules, costs: Costs, customer: CustomerId, queries: Queries, today: Day,
                  before: Shares, at: Shares, shares: Shares, i: nat, months: seq<Month>, n: nat)
    requires i < |rules| && n < |months|
    requires Recomputed(rules, costs, customer, queries, today, before, at, i, months, n)
    requires forall k: Share :: k.rule == i && InMonth(k.day, months[n]) ==>
               Lookup(shares, k) == Target(rules, costs, customer, queries, today, before, months[n], k)
    requires forall k: Share :: k.rule != i || !InMonth(k.day, months[n]) ==> Lookup(shares, k) == Lookup(at, k)
    ensures Recomputed(rules, costs, customer, queries, today, before, shares, i, months, n + 1)
  {
    hide Target, Lookup;
    forall j, k: Share | 0 <= j < n + 1 && k.rule == i && InMonth(k.day, months[j])
      ensures Lookup(shares, k) == Target(rules, costs, customer, queries, today, before, months[j], k)
    {
      if InMonth(k.day, months[n]) {
        MonthsDisjoint(k.day, months[j], months[n]);
      }
    }
  }

  // --- Reconciliation ----------------------------------------------------------------------------

  /** What `reconcile` sums: one currency, an inclusive range of days. */
  datatype Range = Range(start: Day, end: Day, currency: string)

  predicate FactInRange(costs: Costs, customer: CustomerId, range: Range, s: Slice) {
    Mine(costs, customer, s) && s.currency == range.currency && range.start <= s.day <= range.end
  }

  predicate ShareInRange(range: Range, k: Share) {
    k.currency == range.currency && range.start <= k.day <= range.end
  }

  function Spend(costs: Costs, customer: CustomerId, range: Range): set<Slice> {
    set s | s in costs && FactInRange(costs, customer, range, s)
  }

  function Allocated(shares: Shares, range: Range): set<Share> {
    set k | k in shares && ShareInRange(range, k)
  }

  ghost function ShareAmount(shares: Shares, metric: Metric): Share -> int {
    k => if k !in shares then 0 else if metric == Unblended then shares[k].unblended else shares[k].amortized
  }

  ghost function GroupOf(costs: Costs, customer: CustomerId): Share -> set<Slice> {
    k => Group(costs, customer, k)
  }

  /** The facts no whole-account rule claims on their day. */
  ghost function Unclaimed(rules: Rules, costs: Costs, customer: CustomerId, range: Range): set<Slice> {
    set s | s in costs && FactInRange(costs, customer, range, s) && forall i: nat :: !ClaimedBy(rules, i, s.account, s.day)
  }

  /** Every row in range belongs to an active whole-account rule and is fresh. */
  ghost predicate UpToDate(rules: Rules, costs: Costs, customer: CustomerId, shares: Shares, range: Range) {
    && (forall i :: 0 <= i < |rules| && rules[i].active ==> rules[i].kind.WholeAccounts?)
    && (forall i: nat, day :: i < |rules| && rules[i].active && range.start <= day <= range.end ==>
          Fresh(rules, costs, customer, shares, i, day))
    && (forall k :: k in shares && range.start <= k.day <= range.end ==> k.rule < |rules| && rules[k.rule].active)
  }

  lemma SharesGroupClaims(rules: Rules, costs: Costs, customer: CustomerId, shares: Shares, range: Range, s: Slice)
    requires UpToDate(rules, costs, customer, shares, range)
    ensures s in Spend(costs, customer, range) - Unclaimed(rules, costs, customer, range) <==>
            exists k :: k in Allocated(shares, range) && s in GroupOf(costs, customer)(k)
  {
    if s in Spend(costs, customer, range) - Unclaimed(rules, costs, customer, range) {
      var i: nat :| ClaimedBy(rules, i, s.account, s.day);
      var k := ShareOf(i, s);
      assert s in Group(costs, customer, k);
      assert Fresh(rules, costs, customer, shares, i, s.day);
      assert k in Allocated(shares, range);
    }
    if k :| k in Allocated(shares, range) && s in GroupOf(costs, customer)(k) {
      assert Fresh(rules, costs, customer, shares, k.rule, k.day);
      assert ClaimedBy(rules, k.rule, s.account, s.day);
    }
  }

  lemma GroupsDisjoint(rules: Rules, costs: Costs, customer: CustomerId, shares: Shares, range: Range, k: Share, h: Share)
    requires Admitted(rules) && range.end < MAX_DAY && UpToDate(rules, costs, customer, shares, range)
    requires k in Allocated(shares, range) && h in Allocated(shares, range) && k != h
    ensures Group(costs, customer, k) !! Group(costs, customer, h)
  {
    assert Fresh(rules, costs, customer, shares, k.rule, k.day) && Fresh(rules, costs, customer, shares, h.rule, h.day);
    if k.account == h.account && k.day == h.day {
      assert ClaimedBy(rules, k.rule, k.account, k.day) && ClaimedBy(rules, h.rule, k.account, k.day);
      ClaimedOnce(rules, k.rule, h.rule, k.account, k.day);
    }
  }

  /** Conservation: when the rows in range are up to date, what the projects were allocated
      plus what no rule claims is exactly what the customer spent. No cost is allocated twice. */
  lemma AllocationConserves(rules: Rules, costs: Costs, customer: CustomerId, shares: Shares, range: Range, metric: Metric)
    requires Admitted(rules) && range.end < MAX_DAY && UpToDate(rules, costs, customer, shares, range)
    ensures Sums.Sum(Allocated(shares, range), ShareAmount(shares, metric))
            + Total(costs, metric, Unclaimed(rules, costs, customer, range))
            == Total(costs, metric, Spend(costs, customer, range))
  {
    var groups, total, members := Allocated(shares, range), ShareAmount(shares, metric), GroupOf(costs, customer);
    var spend, unclaimed := Spend(costs, customer, range), Unclaimed(rules, costs, customer, range);
    var claimed, amount := spend - unclaimed, AmountOf(costs, metric);
    forall k | k in groups
      ensures total(k) == Sums.Sum(members(k), amount)
    {
      assert Fresh(rules, costs, customer, shares, k.rule, k.day);
    }
    forall s
      ensures s in claimed <==> exists k :: k in groups && s in members(k)
    {
      SharesGroupClaims(rules, costs, customer, shares, range, s);
    }
    forall k, h | k in groups && h in groups && k != h
      ensures members(k) !! members(h)
    {
      GroupsDisjoint(rules, costs, customer, shares, range, k, h);
    }
    hide Spend, Unclaimed, Allocated, UpToDate, Admitted;
    Sums.SumOfGroups(claimed, amount, groups, members, total);
    UnclaimedIsSpend(rules, costs, customer, range);
    Sums.SumUnion(claimed, unclaimed, amount);
    assert claimed + unclaimed == spend;
  }

  lemma UnclaimedIsSpend(rules: Rules, costs: Costs, customer: CustomerId, range: Range)
    ensures Unclaimed(rules, costs, customer, range) <= Spend(costs, customer, range)
  {
  }

  // --- `reconcile` as it runs -----------------------------------------------------------------------

  ghost function SharesOf(rules: Rules, shares: Shares, range: Range, projects: seq<ProjectId>): set<Share> {
    set k | k in shares && ShareInRange(range, k) && k.rule < |rules| && rules[k.rule].project in projects
  }

  /** `aggregate(Sum(metric))` over the customer's facts: None without rows. */
  method SpendTotal(costs: Costs, customer: CustomerId, range: Range, metric: Metric) returns (total: Option<int>)
    ensures total == if Spend(costs, customer, range) == {} then None else Some(Total(costs, metric, Spend(costs, customer, range)))
  {
    var facts := Spend(costs, customer, range);
    var todo, sum := facts, 0;
    while todo != {}
      invariant todo <= facts && sum + Total(costs, metric, todo) == Total(costs, metric, facts)
    {
      var s :| s in todo;
      Sums.SumRemove(todo, AmountOf(costs, metric), s);
      sum := sum + if metric == Unblended then costs[s].amounts.unblended else costs[s].amounts.amortized;
      todo := todo - {s};
    }
    total := if facts == {} then None else Some(sum);
  }

  method ProjectTotal(rules: Rules, shares: Shares, project: ProjectId, range: Range, metric: Metric) returns (total: Option<int>)
    ensures
      var keys := SharesOf(rules, shares, range, [project]);
      total == if keys == {} then None else Some(Sums.Sum(keys, ShareAmount(shares, metric)))
  {
    var keys := set k | k in shares && ShareInRange(range, k) && OfProject(rules, project, k);
    assert keys == SharesOf(rules, shares, range, [project]);
    var todo, sum := keys, 0;
    while todo != {}
      invariant todo <= keys
      invariant sum + Sums.Sum(todo, ShareAmount(shares, metric)) == Sums.Sum(keys, ShareAmount(shares, metric))
    {
      var k :| k in todo;
      Sums.SumRemove(todo, ShareAmount(shares, metric), k);
      sum := sum + if metric == Unblended then shares[k].unblended else shares[k].amortized;
      todo := todo - {k};
    }
    total := if keys == {} then None else Some(sum);
  }

  /** `projects` are the customer's active projects, each once. The remainder is the spend minus
      their allocations; when they own every rule and the rows are up to date it is exactly the
      unclaimed spend. */
  method Reconcile(rules: Rules, costs: Costs, customer: CustomerId, shares: Shares, projects: seq<ProjectId>, range: Range, metric: Metric)
    returns (total: Option<int>, granted: Option<int>, remainder: Option<int>)
    requires forall i, j :: 0 <= i < j < |projects| ==> projects[i] != projects[j]
    ensures total.Some? <==> Spend(costs, customer, range) != {}
    ensures total.Some? ==> total.value == Total(costs, metric, Spend(costs, customer, range))
    ensures granted == if projects == [] then None
                         else Some(Sums.Sum(SharesOf(rules, shares, range, projects), ShareAmount(shares, metric)))
    ensures remainder.Some? <==> total.Some?
    ensures remainder.Some? && granted.Some? ==> remainder.value + granted.value == total.value
    ensures remainder.Some? && Admitted(rules) && range.end < MAX_DAY && UpToDate(rules, costs, customer, shares, range)
              && (forall i :: 0 <= i < |rules| ==> rules[i].project in projects) ==>
              remainder.value == Total(costs, metric, Unclaimed(rules, costs, customer, range))
  {
    hide Spend, Unclaimed, Admitted, Total, ClaimedBy;
    total := SpendTotal(costs, customer, range, metric);
    var sum := 0;
    for n := 0 to |projects|
      invariant sum == Sums.Sum(SharesOf(rules, shares, range, projects[..n]), ShareAmount(shares, metric))
    {
      var amount := ProjectTotal(rules, shares, projects[n], range, metric);
      ProjectsNext(rules, shares, range, projects, n, metric);
      sum := sum + if amount.Some? then amount.value else 0;
    }
    assert projects[..|projects|] == projects;
    granted := if projects == [] then None else Some(sum);
    remainder := if total.Some? then Some(total.value - sum) else None;
    if Admitted(rules) && range.end < MAX_DAY && UpToDate(rules, costs, customer, shares, range) {
      if forall i :: 0 <= i < |rules| ==> rules[i].project in projects {
        AllocationConserves(rules, costs, customer, shares, range, metric);
        assert SharesOf(rules, shares, range, projects) == Allocated(shares, range);
      }
    }
  }

  lemma ProjectsNext(rules: Rules, shares: Shares, range: Range, projects: seq<ProjectId>, n: nat, metric: Metric)
    requires n < |projects| && forall i, j :: 0 <= i < j < |projects| ==> projects[i] != projects[j]
    ensures Sums.Sum(SharesOf(rules, shares, range, projects[..n + 1]), ShareAmount(shares, metric)) ==
            Sums.Sum(SharesOf(rules, shares, range, projects[..n]), ShareAmount(shares, metric))
            + Sums.Sum(SharesOf(rules, shares, range, [projects[n]]), ShareAmount(shares, metric))
  {
    var a := SharesOf(rules, shares, range, projects[..n]);
    var b := SharesOf(rules, shares, range, [projects[n]]);
    assert projects[..n + 1] == projects[..n] + [projects[n]];
    assert SharesOf(rules, shares, range, projects[..n + 1]) == a + b;
    Sums.SumUnion(a, b, ShareAmount(shares, metric));
  }
}
