/** Effective-dated ownership of accounts and the customer stamp of every stored cost row. */
module Ownership {
  import opened Options
  import Sums

  type AccountId = string
  type CustomerId = nat
  type SourceId = nat
  type Day = int

  const EPOCH: Day := 730120   // 2000-01-01
  const MAX_DAY: Day := 3652059 // date.max, 9999-12-31

  /** The account belongs to the customer from `start`, until `end` exclusive. */
  datatype Assignment = Assignment(account: AccountId, customer: CustomerId, start: Day, end: Option<Day>) {
    predicate Covers(day: Day) {
      start <= day && (end.None? || day < end.value)
    }

    predicate WellFormed() {
      start <= MAX_DAY && (end.Some? ==> start < end.value <= MAX_DAY)
    }

    function EndOrMax(): Day {
      if end.Some? then end.value else MAX_DAY
    }
  }

  type Assignments = seq<Assignment>

  /** The test of `AccountAssignment.clean`. */
  predicate Clash(a: Assignment, b: Assignment) {
    a.account == b.account && b.start < a.EndOrMax() && a.start < b.EndOrMax()
  }

  /** Two assignments of one account that never cover the same day. */
  predicate Apart(a: Assignment, b: Assignment) {
    || a.account != b.account
    || (a.end.Some? && a.end.value <= b.start)
    || (b.end.Some? && b.end.value <= a.start)
  }

  /** What the two tests mean day by day: `clean` misses exactly a clash on the last day there is. */
  lemma ClashMeansSharedDay(a: Assignment, b: Assignment)
    requires a.WellFormed() && b.WellFormed() && a.account == b.account
    ensures Clash(a, b) <==> exists day :: day < MAX_DAY && a.Covers(day) && b.Covers(day)
    ensures !Apart(a, b) <==> exists day :: day <= MAX_DAY && a.Covers(day) && b.Covers(day)
  {
    var first := if a.start < b.start then b.start else a.start;
    if Clash(a, b) {
      assert a.Covers(first) && b.Covers(first);
    }
    if !Apart(a, b) {
      assert a.Covers(first) && b.Covers(first);
    }
  }

  ghost predicate Disjoint(owned: Assignments) {
    && (forall i :: 0 <= i < |owned| ==> owned[i].WellFormed())
    && (forall i, j :: 0 <= i < j < |owned| ==> Apart(owned[i], owned[j]))
  }

  ghost predicate Covered(owned: Assignments, account: AccountId, day: Day) {
    exists i :: 0 <= i < |owned| && owned[i].account == account && owned[i].Covers(day)
  }

  /** Owner of an account on a day. */
  ghost function Owner(owned: Assignments, account: AccountId, day: Day): Option<CustomerId> {
    if Covered(owned, account, day) then
      var i :| 0 <= i < |owned| && owned[i].account == account && owned[i].Covers(day);
      Some(owned[i].customer)
    else None
  }

  lemma OwnerIs(owned: Assignments, i: nat, day: Day)
    requires Disjoint(owned) && i < |owned| && owned[i].Covers(day)
    ensures Owner(owned, owned[i].account, day) == Some(owned[i].customer)
  {
    forall j | 0 <= j < |owned| && owned[j].account == owned[i].account && owned[j].Covers(day)
      ensures j == i
    {
    }
  }

  /** At most one assignment of an account is open, and none of the account starts after it. */
  lemma OpenIsLast(owned: Assignments, i: nat, j: nat)
    requires Disjoint(owned) && i < |owned| && j < |owned| && i != j
    requires owned[i].account == owned[j].account && owned[i].end.None?
    ensures owned[j].end.Some? && owned[j].end.value <= owned[i].start
  {
    assert if i < j then Apart(owned[i], owned[j]) else Apart(owned[j], owned[i]);
  }

  // --- Cost rows ---------------------------------------------------------------------------

  /** The unique key of a cost row. */
  datatype Slice = Slice(source: SourceId, day: Day, account: AccountId, service: string, currency: string) {
    predicate InMonth(source: SourceId, first: Day, last: Day) {
      this.source == source && first <= day < last
    }
  }

  datatype Amounts = Amounts(unblended: int, amortized: int)
  datatype Fact = Fact(amounts: Amounts, customer: Option<CustomerId>)

  type Costs = map<Slice, Fact>

  /** Every non-null stamp is the owner of the account on that day. */
  ghost predicate Stamped(owned: Assignments, costs: Costs) {
    forall k :: k in costs && costs[k].customer.Some? ==> costs[k].customer == Owner(owned, k.account, k.day)
  }

  ghost predicate SameAmounts(a: Costs, b: Costs) {
    a.Keys == b.Keys && forall k :: k in a ==> a[k].amounts == b[k].amounts
  }

  datatype Metric = Unblended | Amortized

  ghost function AmountOf(costs: Costs, metric: Metric): Slice -> int {
    k => if k !in costs then 0 else if metric == Unblended then costs[k].amounts.unblended else costs[k].amounts.amortized
  }

  /** One metric summed over a set of rows. */
  ghost function Total(costs: Costs, metric: Metric, keys: set<Slice>): int {
    Sums.Sum(keys, AmountOf(costs, metric))
  }

  // --- Assigning an account ------------------------------------------------------------------

  datatype Transfer = Unchanged | Assigned | TransferTooEarly | Overlapping

  /** The open assignment of an account, if any. */
  ghost predicate OpenAt(owned: Assignments, account: AccountId, i: nat) {
    i < |owned| && owned[i].account == account && owned[i].end.None?
  }

  ghost predicate HasOpen(owned: Assignments, account: AccountId) {
    exists i :: OpenAt(owned, account, i)
  }

  /** Every assignment of the account is closed and ends by the day. */
  ghost predicate EndedBy(owned: Assignments, account: AccountId, day: Day) {
    forall i :: 0 <= i < |owned| && owned[i].account == account ==> owned[i].end.Some? && owned[i].end.value <= day
  }

  /** The outcome of `ensure_assignment` from the rows alone. */
  ghost predicate Outcome(owned: Assignments, account: AccountId, customer: CustomerId, start: Day, result: Transfer) {
    && (forall i: nat :: OpenAt(owned, account, i) ==>
          result == if owned[i].customer == customer then Unchanged
                    else if start <= owned[i].start then TransferTooEarly
                    else Assigned)
    && (!HasOpen(owned, account) ==> result == if EndedBy(owned, account, start) then Assigned else Overlapping)
  }

  /** From the start date on the account belongs to the customer; before it, and for every
      other account, ownership is what it was. */
  ghost predicate Transferred(before: Assignments, after: Assignments, account: AccountId, customer: CustomerId, start: Day) {
    && (forall day :: Owner(after, account, day) == if start <= day then Some(customer) else Owner(before, account, day))
    && (forall other, day :: other != account ==> Owner(after, other, day) == Owner(before, other, day))
  }

  /** Closing the open assignment at `start` and appending the new one. */
  function WithTransfer(owned: Assignments, open: Option<nat>, account: AccountId, customer: CustomerId, start: Day): Assignments
    requires open.Some? ==> open.value < |owned|
  {
    (if open.Some? then owned[open.value := owned[open.value].(end := Some(start))] else owned)
    + [Assignment(account, customer, start, None)]
  }

  lemma TransferDisjoint(owned: Assignments, open: Option<nat>, account: AccountId, customer: CustomerId, start: Day)
    requires Disjoint(owned) && start <= MAX_DAY
    requires open.Some? ==> OpenAt(owned, account, open.value) && owned[open.value].start < start
    requires open.None? ==> EndedBy(owned, account, start)
    ensures Disjoint(WithTransfer(owned, open, account, customer, start))
  {
    var after, n := WithTransfer(owned, open, account, customer, start), |owned|;
    forall i, j | 0 <= i < j < |after|
      ensures Apart(after[i], after[j])
    {
      if j < n {
        assert Apart(owned[i], owned[j]);
      } else if open.Some? && i != open.value && owned[i].account == account {
        OpenIsLast(owned, open.value, i);
      }
    }
  }

  lemma TransferOwners(owned: Assignments, open: Option<nat>, account: AccountId, customer: CustomerId, start: Day)
    requires Disjoint(owned) && start <= MAX_DAY
    requires open.Some? ==> OpenAt(owned, account, open.value) && owned[open.value].start < start
    requires open.None? ==> EndedBy(owned, account, start)
    ensures Transferred(owned, WithTransfer(owned, open, account, customer, start), account, customer, start)
  {
    var after, n := WithTransfer(owned, open, account, customer, start), |owned|;
    TransferDisjoint(owned, open, account, customer, start);
    forall other, day
      ensures Owner(after, other, day) == if other == account && start <= day then Some(customer) else Owner(owned, other, day)
    {
      if other == account && start <= day {
        OwnerIs(after, n, day);
      } else {
        SameOwner(owned, after, other, day);
      }
    }
  }

  /** Ownership of a day is the same when the same rows cover it. */
  lemma SameOwner(before: Assignments, after: Assignments, account: AccountId, day: Day)
    requires Disjoint(before) && Disjoint(after) && |before| <= |after|
    requires forall i :: 0 <= i < |before| && before[i].account == account ==>
               after[i].account == account && after[i].customer == before[i].customer && (after[i].Covers(day) <==> before[i].Covers(day))
    requires forall i :: 0 <= i < |after| && after[i].account == account && after[i].Covers(day) ==> i < |before| && before[i].account == account
    ensures Owner(after, account, day) == Owner(before, account, day)
  {
    if Covered(before, account, day) {
      var i :| 0 <= i < |before| && before[i].account == account && before[i].Covers(day);
      OwnerIs(before, i, day);
      OwnerIs(after, i, day);
    }
  }

  // --- The registry ----------------------------------------------------------------------------

  class Registry {
    var owned: Assignments
    var costs: Costs

    ghost predicate Valid()
      reads this
    {
      Disjoint(owned) && Stamped(owned, costs)
    }

    constructor ()
      ensures Valid() && owned == [] && costs == map[]
    {
      owned, costs := [], map[];
    }

    /** `next(a for a in assignments if a.covers(day))`. */
    method OwnerOn(account: AccountId, day: Day) returns (owner: Option<CustomerId>)
      requires Disjoint(owned)
      ensures owner == Owner(owned, account, day)
    {
      for i := 0 to |owned|
        invariant forall j :: 0 <= j < i ==> !(owned[j].account == account && owned[j].Covers(day))
      {
        if owned[i].account == account && owned[i].Covers(day) {
          OwnerIs(owned, i, day);
          return Some(owned[i].customer);
        }
      }
      return None;
    }

    method FindOpen(account: AccountId) returns (open: Option<nat>)
      requires Disjoint(owned)
      ensures open.Some? ==> OpenAt(owned, account, open.value)
      ensures open.None? ==> !HasOpen(owned, account)
    {
      for i := 0 to |owned|
        invariant forall j :: 0 <= j < i ==> !OpenAt(owned, account, j)
      {
        if owned[i].account == account && owned[i].end.None? {
          return Some(i);
        }
      }
      return None;
    }

    /** Assign an account: a later start ends the open assignment; a start that would overlap
        history is refused and rolls everything back. */
    method EnsureAssignment(account: AccountId, customer: CustomerId, start: Day) returns (result: Transfer)
      requires Disjoint(owned) && start <= MAX_DAY
      modifies this`owned
      ensures Disjoint(owned)
      ensures Outcome(old(owned), account, customer, start, result)
      // The open assignment of the account decides; without one, the ends of the closed ones do.
      ensures forall i: nat :: OpenAt(old(owned), account, i) ==>
                && (result == Unchanged <==> old(owned)[i].customer == customer)
                && (result == TransferTooEarly <==> old(owned)[i].customer != customer && start <= old(owned)[i].start)
                && (result == Assigned <==> old(owned)[i].customer != customer && old(owned)[i].start < start)
      ensures !HasOpen(old(owned), account) ==> result == Assigned || result == Overlapping
      ensures result != Assigned ==> owned == old(owned)
      ensures result == Assigned ==> Transferred(old(owned), owned, account, customer, start)
      ensures result == Assigned && !HasOpen(old(owned), account) ==> owned == old(owned) + [Assignment(account, customer, start, None)]
    {
      hide Owner;
      var open := FindOpen(account);
      if open.Some? {
        forall i | OpenAt(owned, account, i) ensures i == open.value {
          if i != open.value { OpenIsLast(owned, open.value, i); }
        }
        if owned[open.value].customer == customer {
          return Unchanged;
        }
        if start <= owned[open.value].start {
          return TransferTooEarly;
        }
        forall i: nat | i < |owned| && i != open.value && owned[i].account == account
          ensures owned[i].end.Some? && owned[i].end.value <= owned[open.value].start
        {
          OpenIsLast(owned, open.value, i);
        }
      } else {
        assert forall i :: 0 <= i < |owned| && owned[i].account == account ==> !OpenAt(owned, account, i);
      }
      var added := Assignment(account, customer, start, None);
      for i := 0 to |owned|
        invariant forall j :: 0 <= j < i && open != Some(j) ==> !Clash(added, owned[j])
      {
        if open != Some(i) && Clash(added, owned[i]) {
          return Overlapping;
        }
      }
      TransferOwners(owned, open, account, customer, start);
      TransferDisjoint(owned, open, account, customer, start);
      owned := WithTransfer(owned, open, account, customer, start);
      result := Assigned;
    }

    /** Stamp the rows of an account from a day on with their owners; amounts are never touched. */
    method Restamp(account: AccountId, start: Day)
      requires Disjoint(owned)
      modifies this`costs
      ensures SameAmounts(old(costs), costs)
      ensures forall k :: k in costs ==>
                costs[k].customer ==
                if k.account == account && start <= k.day then Owner(owned, account, k.day) else old(costs)[k].customer
    {
      hide Owner, Disjoint;
      var rows := set k | k in costs && k.account == account && start <= k.day;
      var todo := rows;
      while todo != {}
        invariant todo <= rows && SameAmounts(old(costs), costs)
        invariant forall k :: k in costs ==>
                    costs[k].customer == if k in rows - todo then Owner(owned, account, k.day) else old(costs)[k].customer
      {
        var k :| k in todo;
        var owner := OwnerOn(account, k.day);
        if owner != costs[k].customer {
          costs := costs[k := costs[k].(customer := owner)];
        }
        todo := todo - {k};
      }
    }

    /** `account_assign`: transfer, then restamp. Every stamp is the owner again, no day before
        the start changes its owner or its stamp, and no amount changes, so any total over any
        selection of rows is conserved. A refused transfer changes nothing. */
    method Assign(account: AccountId, customer: CustomerId, start: Day) returns (result: Transfer)
      requires Valid() && start <= MAX_DAY
      modifies this
      ensures Valid()
      ensures Outcome(old(owned), account, customer, start, result)
      ensures SameAmounts(old(costs), costs)
      ensures forall keys, metric :: Total(costs, metric, keys) == Total(old(costs), metric, keys)
      ensures result in {TransferTooEarly, Overlapping} ==> owned == old(owned) && costs == old(costs)
      ensures result == Assigned ==> Transferred(old(owned), owned, account, customer, start)
      ensures forall day :: day < start ==> Owner(owned, account, day) == Owner(old(owned), account, day)
      ensures forall k :: k in costs && (k.account != account || k.day < start) ==> costs[k] == old(costs)[k]
      ensures result == Assigned ==>
                forall k :: k in costs && k.account == account && start <= k.day ==> costs[k].customer == Some(customer)
    {
      hide Owner, Disjoint;
      result := EnsureAssignment(account, customer, start);
      if result == Assigned || result == Unchanged {
        Restamp(account, start);
        assert forall k :: k in costs && (k.account != account || k.day < start) ==> costs[k] == old(costs)[k];
      }
      forall keys, metric
        ensures Total(costs, metric, keys) == Total(old(costs), metric, keys)
      {
        Sums.SumSame(keys, AmountOf(costs, metric), AmountOf(old(costs), metric));
      }
    }

    /** `owner_lookup`: accounts of an exclusive source are assigned on first sight, and every
        record gets the owner of its account and day. The first account that has no open assignment
        but a closed one past the epoch makes the whole call fail. */
    method OwnerLookup(customer: CustomerId, shared: bool, approved: set<AccountId>, records: map<Slice, Amounts>)
      returns (admitted: bool, rows: Costs)
      requires Disjoint(owned)
      modifies this`owned
      ensures Disjoint(owned) && (!admitted ==> owned == old(owned))
      ensures admitted <==>
              forall k :: k in records && !shared && k.account in approved ==>
                            HasOpen(old(owned), k.account) || EndedBy(old(owned), k.account, EPOCH)
      ensures admitted ==> rows.Keys == records.Keys && forall k :: k in rows ==> rows[k] == Fact(records[k], Owner(owned, k.account, k.day))
      // Assigning on first sight takes no day from anyone.
      ensures forall account, day :: Owner(old(owned), account, day).Some? ==> Owner(owned, account, day) == Owner(old(owned), account, day)
    {
      hide Owner, Disjoint, HasOpen, EndedBy, FirstSeen;
      var before := owned;
      var accounts := set k | k in records :: k.account;
      NothingSeen(owned, accounts);
      var todo := accounts;
      rows := map[];
      while todo != {}
        invariant todo <= accounts && Disjoint(owned) && before == old(owned)
        invariant FirstSeen(before, owned, todo)
        invariant forall k :: k in records && k.account !in todo && !shared && k.account in approved ==>
                    HasOpen(before, k.account) || EndedBy(before, k.account, EPOCH)
        invariant rows.Keys == set k | k in records && k.account !in todo
        invariant forall k :: k in rows ==> rows[k] == Fact(records[k], Owner(owned, k.account, k.day))
      {
        var account :| account in todo;
        admitted := Admit(before, todo, account, customer, shared, approved);
        if !admitted {
          var k :| k in records && k.account == account;
          owned := before;
          return false, rows;
        }
        assert forall k :: k in rows ==> k.account != account;
        rows := StampAccount(records, account, rows);
        todo := todo - {account};
      }
      OwnersSeen(before, owned, todo);
      admitted := true;
    }

    /** The owners first, then the replacement of one month of one source. Old rows keep amounts and
        stamps. */
    method Publish(source: SourceId, customer: CustomerId, shared: bool, approved: set<AccountId>,
                   first: Day, last: Day, records: map<Slice, Amounts>)
      returns (published: bool)
      requires Valid()
      requires forall k :: k in records ==> k.InMonth(source, first, last)
      modifies this
      ensures Valid()
      ensures !published ==> owned == old(owned) && costs == old(costs)
      ensures published <==>
              forall k :: k in records && !shared && k.account in approved ==>
                            HasOpen(old(owned), k.account) || EndedBy(old(owned), k.account, EPOCH)
      // The month of the source is the batch, stamped with the owners as they are now.
      ensures published ==> forall k :: k in old(costs) && (k.source != source || k.day < first || last <= k.day) ==>
                k in costs && costs[k] == old(costs)[k]
      ensures published ==> forall k :: k in costs && k.source == source && first <= k.day < last ==> k in records
      ensures published ==>
                && (forall k: Slice :: k.InMonth(source, first, last) ==> (k in costs <==> k in records))
                && (forall k :: k in records ==> costs[k] == Fact(records[k], Owner(owned, k.account, k.day)))
                && (forall k: Slice :: !k.InMonth(source, first, last) ==>
                      (k in costs <==> k in old(costs)) && (k in costs ==> costs[k] == old(costs)[k]))
      ensures forall account, day :: Owner(old(owned), account, day).Some? ==> Owner(owned, account, day) == Owner(old(owned), account, day)
    {
      hide Owner, Disjoint, HasOpen, EndedBy;
      var rows: Costs;
      published, rows := OwnerLookup(customer, shared, approved, records);
      if published {
        costs := (map k | k in costs && !k.InMonth(source, first, last) :: costs[k]) + rows;
      }
    }

    /** One account of a batch: assign it on first sight when the source is exclusive. */
    method Admit(before: Assignments, ghost todo: set<AccountId>, account: AccountId, customer: CustomerId, shared: bool,
                 approved: set<AccountId>)
      returns (admitted: bool)
      requires Disjoint(owned) && FirstSeen(before, owned, todo) && account in todo
      modifies this`owned
      ensures Disjoint(owned)
      ensures admitted <==> (!shared && account in approved ==> HasOpen(before, account) || EndedBy(before, account, EPOCH))
      ensures admitted ==> FirstSeen(before, owned, todo - {account})
      ensures forall other, day :: other != account ==> Owner(owned, other, day) == Owner(old(owned), other, day)
    {
      hide Owner, Disjoint;
      SameOpen(before, owned, todo, account);
      if !shared && account in approved {
        var open := FindOpen(account);
        if open.None? {
          var result := EnsureAssignment(account, customer, EPOCH);
          if result != Assigned {
            return false;
          }
          StillFirstSeen(before, old(owned), todo, account, customer);
        }
      }
      return true;
    }

    /** Stamp the records of one account. */
    method StampAccount(records: map<Slice, Amounts>, account: AccountId, rows: Costs) returns (stamped: Costs)
      requires Disjoint(owned)
      ensures stamped.Keys == rows.Keys + set k | k in records && k.account == account
      ensures forall k :: k in stamped ==>
                stamped[k] == if k in records && k.account == account then Fact(records[k], Owner(owned, account, k.day)) else rows[k]
    {
      hide Owner, Disjoint;
      var mine := set k | k in records && k.account == account;
      var todo := mine;
      stamped := rows;
      while todo != {}
        invariant todo <= mine
        invariant stamped.Keys == rows.Keys + (mine - todo)
        invariant forall k :: k in stamped ==>
                    stamped[k] == if k in mine - todo then Fact(records[k], Owner(owned, account, k.day)) else rows[k]
      {
        var k :| k in todo;
        var owner := OwnerOn(account, k.day);
        stamped := stamped[k := Fact(records[k], owner)];
        todo := todo - {k};
      }
    }

    /** `offboard_customer`: end every open assignment of the customer today, or one day after
        it started. A start on the last date there is makes the whole call fail. Past ownership
        stays; stamps stay too, so they remain owners exactly when no stored row of the customer
        lies on a day that was taken away. */
    method Offboard(customer: CustomerId, today: Day) returns (done: bool)
      requires Valid() && today <= MAX_DAY
      modifies this`owned
      ensures Disjoint(owned)
      ensures done <==> forall i :: 0 <= i < |old(owned)| && old(owned)[i].customer == customer && old(owned)[i].end.None? ==>
                          old(owned)[i].start < MAX_DAY
      ensures !done ==> owned == old(owned)
      ensures done ==>
                && |owned| == |old(owned)|
                && forall i :: 0 <= i < |owned| ==> owned[i] == Closed(old(owned)[i], customer, today)
      ensures done ==>
                (Stamped(owned, costs) <==>
                  forall k :: k in costs && costs[k].customer == Some(customer) ==> Owner(owned, k.account, k.day) == Some(customer))
    {
      var before := owned;
      for i := 0 to |before|
        invariant |owned| == |before| && before == old(owned)
        invariant forall j :: 0 <= j < i && before[j].customer == customer && before[j].end.None? ==> before[j].start < MAX_DAY
        invariant forall j :: 0 <= j < |owned| ==> owned[j] == if j < i then Closed(before[j], customer, today) else before[j]
      {
        if owned[i].customer == customer && owned[i].end.None? {
          if owned[i].start >= MAX_DAY {
            owned := before;
            return false;
          }
          owned := owned[i := Closed(owned[i], customer, today)];
        }
      }
      ClosedOwners(before, owned, customer, today);
      done := true;
    }
  }

  function Closed(a: Assignment, customer: CustomerId, today: Day): Assignment {
    if a.customer == customer && a.end.None? then a.(end := Some(if a.start + 1 <= today then today else a.start + 1)) else a
  }

  /** Closing an open assignment of the customer takes the days from today on, but never its first day;
      it touches no other assignment. */
  lemma ClosedDays(a: Assignment, customer: CustomerId, today: Day, day: Day)
    ensures
      var after := Closed(a, customer, today);
      && after == a.(end := after.end)
      && (after.Covers(day) <==> a.Covers(day) && !(a.customer == customer && a.end.None? && a.start < day && today <= day))
      && (a.customer == customer ==> after.end.Some?)
      && (a.end.Some? || a.customer != customer ==> after == a)
  {
  }

  /** Closing takes days from this customer only. */
  lemma ClosedOwners(before: Assignments, after: Assignments, customer: CustomerId, today: Day)
    requires Disjoint(before) && today <= MAX_DAY && |after| == |before|
    requires forall i :: 0 <= i < |before| ==> after[i] == Closed(before[i], customer, today)
    requires forall i :: 0 <= i < |before| && before[i].customer == customer && before[i].end.None? ==> before[i].start < MAX_DAY
    ensures Disjoint(after)
    ensures forall account, day :: Owner(before, account, day) != Some(customer) ==> Owner(after, account, day) == Owner(before, account, day)
  {
    forall i, j | 0 <= i < j < |after|
      ensures Apart(after[i], after[j])
    {
      assert Apart(before[i], before[j]);
    }
    forall account, day | Owner(before, account, day) != Some(customer)
      ensures Owner(after, account, day) == Owner(before, account, day)
    {
      if Covered(before, account, day) {
        var i :| 0 <= i < |before| && before[i].account == account && before[i].Covers(day);
        OwnerIs(before, i, day);
        OwnerIs(after, i, day);
      }
    }
  }

  // --- First sight of accounts -------------------------------------------------------------------

  /** Only new rows for accounts already handled were appended, and no owned day changed hands. */
  ghost predicate FirstSeen(before: Assignments, owned: Assignments, todo: set<AccountId>) {
    && before <= owned
    && (forall i :: |before| <= i < |owned| ==> owned[i].account !in todo)
    && (forall account, day :: Owner(before, account, day).Some? ==> Owner(owned, account, day) == Owner(before, account, day))
  }

  lemma NothingSeen(owned: Assignments, todo: set<AccountId>)
    ensures FirstSeen(owned, owned, todo)
  {
  }

  lemma OwnersSeen(before: Assignments, owned: Assignments, todo: set<AccountId>)
    requires FirstSeen(before, owned, todo)
    ensures forall account, day :: Owner(before, account, day).Some? ==> Owner(owned, account, day) == Owner(before, account, day)
  {
  }

  lemma SameOpen(before: Assignments, owned: Assignments, todo: set<AccountId>, account: AccountId)
    requires FirstSeen(before, owned, todo) && account in todo
    ensures HasOpen(before, account) <==> HasOpen(owned, account)
    ensures forall i :: 0 <= i < |owned| && owned[i].account == account ==> i < |before| && owned[i] == before[i]
  {
    hide Owner;
    if HasOpen(before, account) {
      var i :| OpenAt(before, account, i);
      assert OpenAt(owned, account, i);
    }
    if HasOpen(owned, account) {
      var i :| OpenAt(owned, account, i);
      assert OpenAt(before, account, i);
    }
  }

  lemma StillFirstSeen(before: Assignments, owned: Assignments, todo: set<AccountId>, account: AccountId, customer: CustomerId)
    requires FirstSeen(before, owned, todo) && account in todo
    requires !HasOpen(owned, account) && Outcome(owned, account, customer, EPOCH, Assigned)
    requires Transferred(owned, owned + [Assignment(account, customer, EPOCH, None)], account, customer, EPOCH)
    ensures FirstSeen(before, owned + [Assignment(account, customer, EPOCH, None)], todo - {account})
  {
    var after := owned + [Assignment(account, customer, EPOCH, None)];
    forall other, day | Owner(before, other, day).Some?
      ensures Owner(after, other, day) == Owner(before, other, day)
    {
      assert Owner(owned, other, day).Some?;
      assert Covered(owned, other, day);
    }
  }
}
