/** The windows in which AWS is queried for one customer of one source: between two
    consecutive boundaries the set of accounts the customer owns does not change. */
module Windows {
  import opened Options
  import opened Ownership
  import Sums
  import Text

  /** Exclusive-end interval and the accounts to ask for; no account list means no filter. */
  datatype Window = Window(left: Day, right: Day, accounts: Option<seq<AccountId>>)

  predicate Holds(w: Window, account: AccountId, day: Day) {
    w.left <= day < w.right && (w.accounts.Some? ==> account in w.accounts.value)
  }

  ghost predicate InSome(windows: seq<Window>, account: AccountId, day: Day) {
    exists i :: 0 <= i < |windows| && Holds(windows[i], account, day)
  }

  /** The access context may list permitted accounts; an empty list restricts nothing. */
  predicate Permitted(permitted: Option<set<AccountId>>, account: AccountId) {
    permitted.None? || permitted.value == {} || account in permitted.value
  }

  /** An assignment the query of `ownership_windows` returns. */
  predicate Selected(a: Assignment, sourceOf: map<AccountId, SourceId>, source: SourceId, customer: CustomerId,
                     start: Day, end: Day) {
    && a.customer == customer
    && a.account in sourceOf && sourceOf[a.account] == source
    && a.start < end && (a.end.None? || start < a.end.value)
  }

  /** The customer owns the account through this source on the day, and may see it. */
  ghost predicate OwnedOn(owned: Assignments, sourceOf: map<AccountId, SourceId>, source: SourceId, customer: CustomerId,
                          permitted: Option<set<AccountId>>, account: AccountId, day: Day) {
    && account in sourceOf && sourceOf[account] == source && Permitted(permitted, account)
    && exists i :: 0 <= i < |owned| && owned[i].account == account && owned[i].customer == customer && owned[i].Covers(day)
  }

  /** An assignment of the customer covers the account on the day. */
  ghost predicate Covering(owned: Assignments, customer: CustomerId, account: AccountId, day: Day) {
    exists a :: a in owned && a.account == account && a.customer == customer && a.start <= day && (a.end.Some? ==> day < a.end.value)
  }

  /** The customer owns the account through this source on the day, and may see it. */
  lemma OwnedOnExactly(owned: Assignments, sourceOf: map<AccountId, SourceId>, source: SourceId, customer: CustomerId,
                       permitted: Option<set<AccountId>>, account: AccountId, day: Day)
    ensures OwnedOn(owned, sourceOf, source, customer, permitted, account, day) <==>
            && account in sourceOf && sourceOf[account] == source
            && (permitted.Some? && permitted.value != {} ==> account in permitted.value)
            && Covering(owned, customer, account, day)
  {
    if Covering(owned, customer, account, day) {
      var a :| a in owned && a.account == account && a.customer == customer && a.start <= day && (a.end.Some? ==> day < a.end.value);
      var i :| 0 <= i < |owned| && owned[i] == a;
    }
  }

  ghost predicate Ordered(windows: seq<Window>) {
    && (forall i :: 0 <= i < |windows| ==> windows[i].left < windows[i].right)
    && (forall i, j :: 0 <= i < j < |windows| ==> windows[i].right <= windows[j].left)
  }

  // --- Sorted boundaries ---------------------------------------------------------------------

  ghost predicate Increasing(days: seq<Day>) {
    forall i, j :: 0 <= i < j < |days| ==> days[i] < days[j]
  }

  /** Insert into increasing days; a day already there is not repeated. */
  function Insert(day: Day, days: seq<Day>): (r: seq<Day>)
    requires Increasing(days)
    ensures Increasing(r)
    ensures forall d :: d in r <==> d == day || d in days
  {
    if days == [] || day < days[0] then [day] + days
    else if day == days[0] then days
    else
      var rest := Insert(day, days[1..]);
      assert forall i :: 0 <= i < |rest| ==> rest[i] in rest;
      [days[0]] + rest
  }

  // --- Boundaries -------------------------------------------------------------------------------

  function Max(a: Day, b: Day): Day { if a < b then b else a }

  function Min(a: Day, b: Day): Day { if a < b then a else b }

  ghost function Boundaries(chosen: seq<Assignment>, start: Day, end: Day): set<Day> {
    {start, end}
    + (set i | 0 <= i < |chosen| :: Max(start, chosen[i].start))
    + (set i | 0 <= i < |chosen| && chosen[i].end.Some? :: Min(end, chosen[i].end.value))
  }

  /** `sorted({start, end} | ...)`. */
  method SortBoundaries(chosen: seq<Assignment>, start: Day, end: Day) returns (days: seq<Day>)
    ensures Increasing(days)
    ensures forall d :: d in days <==> d in Boundaries(chosen, start, end)
  {
    days := Insert(start, [end]);
    for i := 0 to |chosen|
      invariant Increasing(days)
      invariant forall d :: d in days <==> d in Boundaries(chosen[..i], start, end)
    {
      BoundariesNext(chosen[..i], chosen[i], start, end);
      assert chosen[..i] + [chosen[i]] == chosen[..i + 1];
      days := Insert(Max(start, chosen[i].start), days);
      if chosen[i].end.Some? {
        days := Insert(Min(end, chosen[i].end.value), days);
      }
    }
    assert chosen[..|chosen|] == chosen;
  }

  lemma BoundariesNext(chosen: seq<Assignment>, a: Assignment, start: Day, end: Day)
    ensures Boundaries(chosen + [a], start, end) ==
            Boundaries(chosen, start, end) + {Max(start, a.start)} + if a.end.Some? then {Min(end, a.end.value)} else {}
  {
    var all := chosen + [a];
    assert all[|chosen|] == a && forall i :: 0 <= i < |chosen| ==> all[i] == chosen[i];
  }

  function CoveredIds(chosen: seq<Assignment>, permitted: Option<set<AccountId>>, day: Day): set<AccountId> {
    set i | 0 <= i < |chosen| && chosen[i].Covers(day) && Permitted(permitted, chosen[i].account) :: chosen[i].account
  }

  ghost function ChosenIds(chosen: seq<Assignment>, permitted: Option<set<AccountId>>): set<AccountId> {
    set i | 0 <= i < |chosen| && Permitted(permitted, chosen[i].account) :: chosen[i].account
  }

  /** Between two consecutive boundaries an assignment covers all days or none. */
  lemma StableBetween(chosen: seq<Assignment>, start: Day, end: Day, i: nat, left: Day, right: Day, day: Day)
    requires i < |chosen| && start <= left <= day < right <= end
    requires forall b :: b in Boundaries(chosen, start, end) ==> b <= left || right <= b
    ensures chosen[i].Covers(left) <==> chosen[i].Covers(day)
  {
    assert Max(start, chosen[i].start) in Boundaries(chosen, start, end);
    if chosen[i].end.Some? {
      assert Min(end, chosen[i].end.value) in Boundaries(chosen, start, end);
    }
  }

  lemma StableIds(chosen: seq<Assignment>, permitted: Option<set<AccountId>>, start: Day, end: Day, left: Day, right: Day, day: Day)
    requires start <= left <= day < right <= end
    requires forall b :: b in Boundaries(chosen, start, end) ==> b <= left || right <= b
    ensures CoveredIds(chosen, permitted, left) == CoveredIds(chosen, permitted, day)
  {
    forall i: nat | i < |chosen|
      ensures chosen[i].Covers(left) <==> chosen[i].Covers(day)
    {
      StableBetween(chosen, start, end, i, left, right, day);
    }
  }

  /** When `start <= end`, every boundary lies between them. */
  lemma BoundariesWithin(chosen: seq<Assignment>, start: Day, end: Day)
    requires start <= end
    requires forall i :: 0 <= i < |chosen| ==> chosen[i].start < end && (chosen[i].end.Some? ==> start < chosen[i].end.value)
    ensures forall b :: b in Boundaries(chosen, start, end) ==> start <= b <= end
  {
  }

  /** When `end < start`, the bounds themselves are the only boundaries. */
  lemma BoundariesReversed(chosen: seq<Assignment>, start: Day, end: Day)
    requires end < start
    requires forall i :: 0 <= i < |chosen| ==> chosen[i].start < end && (chosen[i].end.Some? ==> start < chosen[i].end.value)
    ensures Boundaries(chosen, start, end) == {start, end}
  {
  }

  /** The windows between consecutive days of a list; a piece without accounts gives none. */
  function Pieces(chosen: seq<Assignment>, permitted: Option<set<AccountId>>, days: seq<Day>): seq<Window> {
    if |days| < 2 then []
    else
      var left, right := days[|days| - 2], days[|days| - 1];
      var ids := Text.Sorted(CoveredIds(chosen, permitted, left));
      Pieces(chosen, permitted, days[..|days| - 1]) + if ids == [] then [] else [Window(left, right, Some(ids))]
  }

  ghost predicate OrderedUpTo(windows: seq<Window>, last: Day) {
    && Ordered(windows)
    && forall i :: 0 <= i < |windows| ==> windows[i].right <= last && windows[i].accounts.Some? && Text.Ascending(windows[i].accounts.value)
  }

  lemma OneMore(windows: seq<Window>, left: Day, right: Day, ids: seq<AccountId>)
    requires OrderedUpTo(windows, left) && left < right && Text.Ascending(ids)
    ensures OrderedUpTo(windows + [Window(left, right, Some(ids))], right) && OrderedUpTo(windows, right)
  {
    hide Text.Ascending;
  }

  lemma {:induction false} PiecesOrdered(chosen: seq<Assignment>, permitted: Option<set<AccountId>>, days: seq<Day>)
    requires Increasing(days)
    ensures if days == [] then Pieces(chosen, permitted, days) == [] else OrderedUpTo(Pieces(chosen, permitted, days), days[|days| - 1])
  {
    hide OrderedUpTo, CoveredIds, Text.Sorted, Text.Ascending;
    if |days| >= 2 {
      var left, right := days[|days| - 2], days[|days| - 1];
      var front := days[..|days| - 1];
      assert front[|front| - 1] == left;
      PiecesOrdered(chosen, permitted, front);
      var before, ids := Pieces(chosen, permitted, front), Text.Sorted(CoveredIds(chosen, permitted, left));
      OneMore(before, left, right, ids);
      assert Pieces(chosen, permitted, days) == if ids == [] then before else before + [Window(left, right, Some(ids))];
    } else {
      NoneOrdered(if days == [] then 0 else days[0]);
    }
  }

  lemma NoneOrdered(last: Day)
    ensures OrderedUpTo([], last)
  {
  }

  ghost predicate InPiece(chosen: seq<Assignment>, permitted: Option<set<AccountId>>, days: seq<Day>, account: AccountId, day: Day) {
    exists k :: 0 <= k < |days| - 1 && days[k] <= day < days[k + 1] && account in CoveredIds(chosen, permitted, days[k])
  }

  lemma InPieceSplit(chosen: seq<Assignment>, permitted: Option<set<AccountId>>, days: seq<Day>, account: AccountId, day: Day)
    requires |days| >= 2
    ensures
      var n := |days|;
      InPiece(chosen, permitted, days, account, day) <==>
      || InPiece(chosen, permitted, days[..n - 1], account, day)
      || (days[n - 2] <= day < days[n - 1] && account in CoveredIds(chosen, permitted, days[n - 2]))
  {
    hide CoveredIds;
    var n := |days|;
    var front := days[..n - 1];
    if InPiece(chosen, permitted, front, account, day) {
      var k :| 0 <= k < n - 2 && front[k] <= day < front[k + 1] && account in CoveredIds(chosen, permitted, front[k]);
      assert days[k] == front[k] && days[k + 1] == front[k + 1];
    }
    if InPiece(chosen, permitted, days, account, day) {
      var k :| 0 <= k < n - 1 && days[k] <= day < days[k + 1] && account in CoveredIds(chosen, permitted, days[k]);
      assert k < n - 2 ==> front[k] == days[k] && front[k + 1] == days[k + 1];
    }
  }

  lemma InSomeSplit(before: seq<Window>, more: seq<Window>, account: AccountId, day: Day)
    ensures InSome(before + more, account, day) <==> InSome(before, account, day) || InSome(more, account, day)
  {
    var all := before + more;
    assert forall i :: 0 <= i < |before| ==> all[i] == before[i];
    assert forall i :: 0 <= i < |more| ==> all[|before| + i] == more[i];
  }

  lemma {:induction false} PiecesHold(chosen: seq<Assignment>, permitted: Option<set<AccountId>>, days: seq<Day>,
                                      account: AccountId, day: Day)
    ensures InSome(Pieces(chosen, permitted, days), account, day) <==> InPiece(chosen, permitted, days, account, day)
  {
    if |days| >= 2 {
      var n := |days|;
      var front := days[..n - 1];
      PiecesHold(chosen, permitted, front, account, day);
      InPieceSplit(chosen, permitted, days, account, day);
      var left := days[n - 2];
      var ids := Text.Sorted(CoveredIds(chosen, permitted, left));
      var more := if ids == [] then [] else [Window(left, days[n - 1], Some(ids))];
      assert Pieces(chosen, permitted, days) == Pieces(chosen, permitted, front) + more;
      InSomeSplit(Pieces(chosen, permitted, front), more, account, day);
      assert InSome(more, account, day) <==> left <= day < days[n - 1] && account in CoveredIds(chosen, permitted, left) by {
        hide CoveredIds;
        if ids != [] {
          assert more[0] == Window(left, days[n - 1], Some(ids));
        }
      }
    }
  }

  /** A day from the first to before the last of increasing days lies between two neighbours. */
  lemma {:induction false} Locate(days: seq<Day>, day: Day) returns (k: nat)
    requires |days| >= 2 && days[0] <= day < days[|days| - 1]
    ensures k < |days| - 1 && days[k] <= day < days[k + 1]
  {
    if day < days[1] {
      k := 0;
    } else {
      k := Locate(days[1..], day);
      k := k + 1;
    }
  }

  lemma Neighbours(days: seq<Day>, all: set<Day>, k: nat)
    requires Increasing(days) && (forall d :: d in days <==> d in all) && k + 1 < |days|
    ensures forall b :: b in all ==> b <= days[k] || days[k + 1] <= b
  {
    forall b | b in all
      ensures b <= days[k] || days[k + 1] <= b
    {
      var i :| 0 <= i < |days| && days[i] == b;
    }
  }

  /** The list of the selected assignments and the list of all give the same days in range. */
  lemma CoveredMeansOwned(owned: Assignments, sourceOf: map<AccountId, SourceId>, source: SourceId, customer: CustomerId,
                          start: Day, end: Day, permitted: Option<set<AccountId>>, chosen: seq<Assignment>, account: AccountId, day: Day)
    requires forall a :: a in chosen <==> a in owned && Selected(a, sourceOf, source, customer, start, end)
    requires start <= day < end
    ensures account in CoveredIds(chosen, permitted, day) <==> OwnedOn(owned, sourceOf, source, customer, permitted, account, day)
  {
    if account in CoveredIds(chosen, permitted, day) {
      var i :| 0 <= i < |chosen| && chosen[i].Covers(day) && Permitted(permitted, chosen[i].account) && chosen[i].account == account;
      assert chosen[i] in owned;
    }
    if OwnedOn(owned, sourceOf, source, customer, permitted, account, day) {
      var i :| 0 <= i < |owned| && owned[i].account == account && owned[i].customer == customer && owned[i].Covers(day);
      assert owned[i] in chosen;
      var j :| 0 <= j < |chosen| && chosen[j] == owned[i];
    }
  }

  lemma Exact(owned: Assignments, sourceOf: map<AccountId, SourceId>, source: SourceId, customer: CustomerId,
              start: Day, end: Day, permitted: Option<set<AccountId>>, chosen: seq<Assignment>, days: seq<Day>,
              account: AccountId, day: Day)
    requires start <= end && Increasing(days)
    requires forall a :: a in chosen <==> a in owned && Selected(a, sourceOf, source, customer, start, end)
    requires forall d :: d in days <==> d in Boundaries(chosen, start, end)
    ensures InSome(Pieces(chosen, permitted, days), account, day) <==>
            start <= day < end && OwnedOn(owned, sourceOf, source, customer, permitted, account, day)
  {
    hide CoveredIds, OwnedOn, Pieces, InSome;
    PiecesHold(chosen, permitted, days, account, day);
    assert forall i :: 0 <= i < |chosen| ==> chosen[i] in chosen;
    BoundariesWithin(chosen, start, end);
    assert start in days && end in days;
    assert forall i :: 0 <= i < |days| ==> days[i] in days;
    hide Boundaries;
    assert days[0] == start && days[|days| - 1] == end;
    if InPiece(chosen, permitted, days, account, day) {
      var k :| 0 <= k < |days| - 1 && days[k] <= day < days[k + 1] && account in CoveredIds(chosen, permitted, days[k]);
      Neighbours(days, Boundaries(chosen, start, end), k);
      StableIds(chosen, permitted, start, end, days[k], days[k + 1], day);
      CoveredMeansOwned(owned, sourceOf, source, customer, start, end, permitted, chosen, account, day);
    } else if start <= day < end {
      var k := Locate(days, day);
      Neighbours(days, Boundaries(chosen, start, end), k);
      StableIds(chosen, permitted, start, end, days[k], days[k + 1], day);
      CoveredMeansOwned(owned, sourceOf, source, customer, start, end, permitted, chosen, account, day);
    }
  }

  /** An increasing list is determined by its elements. */
  lemma {:induction false} IncreasingUnique(a: seq<Day>, b: seq<Day>)
    requires Increasing(a) && Increasing(b) && forall d :: d in a <==> d in b
    ensures a == b
  {
    if a != [] {
      assert a[0] in a;
    }
    if b != [] {
      assert b[0] in b;
    }
    if a != [] && b != [] {
      TailElements(a);
      TailElements(b);
      IncreasingUnique(a[1..], b[1..]);
    }
  }

  lemma TailElements(a: seq<Day>)
    requires Increasing(a) && a != []
    ensures forall d :: d in a[1..] <==> d in a && d != a[0]
  {
    assert a == [a[0]] + a[1..];
  }

  lemma Ordered2(x: Day, y: Day)
    requires x < y
    ensures Increasing([x, y])
  {
  }

  /** With the bounds reversed there is one pair of boundaries, and every selected assignment
      covers its left end. */
  lemma Reversed(chosen: seq<Assignment>, start: Day, end: Day, permitted: Option<set<AccountId>>, days: seq<Day>)
    requires end < start && Increasing(days)
    requires forall i :: 0 <= i < |chosen| ==> chosen[i].start < end && (chosen[i].end.Some? ==> start < chosen[i].end.value)
    requires forall d :: d in days <==> d in Boundaries(chosen, start, end)
    ensures days == [end, start]
    ensures CoveredIds(chosen, permitted, end) == ChosenIds(chosen, permitted)
    ensures
      var windows, ids := Pieces(chosen, permitted, days), Text.Sorted(CoveredIds(chosen, permitted, end));
      windows == if ids == [] then [] else [Window(end, start, Some(ids))]
  {
    BoundariesReversed(chosen, start, end);
    hide Boundaries, Increasing;
    assert Increasing([end, start]) by { Ordered2(end, start); }
    IncreasingUnique(days, [end, start]);
    assert days[..1] == [end];
  }

  method Select(owned: Assignments, sourceOf: map<AccountId, SourceId>, source: SourceId, customer: CustomerId, start: Day, end: Day)
    returns (chosen: seq<Assignment>)
    ensures forall a :: a in chosen <==> a in owned && Selected(a, sourceOf, source, customer, start, end)
  {
    chosen := [];
    for i := 0 to |owned|
      invariant forall a :: a in chosen <==> a in owned[..i] && Selected(a, sourceOf, source, customer, start, end)
    {
      if Selected(owned[i], sourceOf, source, customer, start, end) {
        chosen := chosen + [owned[i]];
      }
    }
    assert owned[..|owned|] == owned;
  }

  /** The accounts some selected assignment of the customer lets it ask for. */
  ghost predicate SomeSelected(owned: Assignments, sourceOf: map<AccountId, SourceId>, source: SourceId, customer: CustomerId,
                               start: Day, end: Day, permitted: Option<set<AccountId>>) {
    exists a :: a in owned && Selected(a, sourceOf, source, customer, start, end) && Permitted(permitted, a.account)
  }

  /** The windows are ordered and disjoint, and say of every account and day whether the customer
      owns it in the range and may see it. */
  ghost predicate ExactFor(windows: seq<Window>, owned: Assignments, sourceOf: map<AccountId, SourceId>, source: SourceId,
                           customer: CustomerId, start: Day, end: Day, permitted: Option<set<AccountId>>) {
    && Ordered(windows)
    && forall account, day :: InSome(windows, account, day) <==>
                              start <= day < end && OwnedOn(owned, sourceOf, source, customer, permitted, account, day)
  }

  /** The loop over pairs of neighbouring boundaries. */
  method BuildWindows(chosen: seq<Assignment>, permitted: Option<set<AccountId>>, days: seq<Day>) returns (windows: seq<Window>)
    requires days != []
    ensures windows == Pieces(chosen, permitted, days)
  {
    windows := [];
    var i := 0;
    hide CoveredIds, Text.Ascending;
    while i + 1 < |days|
      invariant 0 <= i < |days|
      invariant windows == Pieces(chosen, permitted, days[..i + 1])
    {
      var ids := Text.Sorted(CoveredIds(chosen, permitted, days[i]));
      assert days[..i + 2][..i + 1] == days[..i + 1];
      if ids != [] {
        windows := windows + [Window(days[i], days[i + 1], Some(ids))];
      }
      i := i + 1;
    }
    assert days[..i + 1] == days;
  }

  /** The windows of one customer. For `start <= end` they are ordered and disjoint, and an
      account and day lie in one of them exactly when the customer owns the account then. For
      `end < start` the range holds no day, yet the single window (end, start) comes back
      exactly when some permitted account is owned throughout [end, start]. */
  method OwnershipWindows(owned: Assignments, sourceOf: map<AccountId, SourceId>, source: SourceId,
                          customer: Option<CustomerId>, start: Day, end: Day, permitted: Option<set<AccountId>>)
    returns (windows: seq<Window>)
    ensures customer.None? ==> windows == [Window(start, end, None)]
    ensures customer.Some? && start <= end ==>
              && ExactFor(windows, owned, sourceOf, source, customer.value, start, end, permitted)
              && (forall i :: 0 <= i < |windows| ==> windows[i].accounts.Some? && Text.Ascending(windows[i].accounts.value))
    // A list of permitted accounts that is not empty limits the windows to them; an empty one limits nothing.
    ensures customer.Some? && start <= end ==>
              forall account, day :: InSome(windows, account, day) <==>
                                     && start <= day < end && account in sourceOf && sourceOf[account] == source
                                     && (permitted.Some? && permitted.value != {} ==> account in permitted.value)
                                     && Covering(owned, customer.value, account, day)
    ensures customer.Some? && end < start ==>
              if SomeSelected(owned, sourceOf, source, customer.value, start, end, permitted)
              then |windows| == 1 && windows[0].left == end && windows[0].right == start
              else windows == []
  {
    if customer.None? {
      return [Window(start, end, None)];
    }
    var chosen := Select(owned, sourceOf, source, customer.value, start, end);
    var days := SortBoundaries(chosen, start, end);
    assert start in days;
    hide Boundaries, CoveredIds, Selected, OwnedOn, InSome, SomeSelected, Ordered, Increasing, Text.Ascending, Pieces, ExactFor;
    windows := BuildWindows(chosen, permitted, days);
    WindowsMeaning(owned, sourceOf, source, customer.value, start, end, permitted, chosen, days);
    if start <= end {
      ExactPlainly(windows, owned, sourceOf, source, customer.value, start, end, permitted);
    }
    hide Covering;
  }

  lemma ExactPlainly(windows: seq<Window>, owned: Assignments, sourceOf: map<AccountId, SourceId>, source: SourceId,
                     customer: CustomerId, start: Day, end: Day, permitted: Option<set<AccountId>>)
    requires ExactFor(windows, owned, sourceOf, source, customer, start, end, permitted)
    ensures forall account, day :: InSome(windows, account, day) <==>
                                   && start <= day < end && account in sourceOf && sourceOf[account] == source
                                   && (permitted.Some? && permitted.value != {} ==> account in permitted.value)
                                   && Covering(owned, customer, account, day)
  {
    hide InSome, OwnedOn, Covering, Ordered;
    forall account, day
      ensures InSome(windows, account, day) <==>
              && start <= day < end && account in sourceOf && sourceOf[account] == source
              && (permitted.Some? && permitted.value != {} ==> account in permitted.value)
              && Covering(owned, customer, account, day)
    {
      OwnedOnExactly(owned, sourceOf, source, customer, permitted, account, day);
    }
  }

  lemma WindowsMeaning(owned: Assignments, sourceOf: map<AccountId, SourceId>, source: SourceId, customer: CustomerId,
                       start: Day, end: Day, permitted: Option<set<AccountId>>, chosen: seq<Assignment>, days: seq<Day>)
    requires Increasing(days) && forall d :: d in days <==> d in Boundaries(chosen, start, end)
    requires forall a :: a in chosen <==> a in owned && Selected(a, sourceOf, source, customer, start, end)
    ensures
      var windows := Pieces(chosen, permitted, days);
      && (forall i :: 0 <= i < |windows| ==> windows[i].accounts.Some? && Text.Ascending(windows[i].accounts.value))
      && (start <= end ==> ExactFor(windows, owned, sourceOf, source, customer, start, end, permitted))
      && (end < start ==>
            if SomeSelected(owned, sourceOf, source, customer, start, end, permitted)
            then |windows| == 1 && windows[0].left == end && windows[0].right == start
            else windows == [])
  {
    PiecesOrdered(chosen, permitted, days);
    assert start in days;
    if start <= end {
      hide Pieces, InSome, OwnedOn, CoveredIds;
      forall account, day
        ensures InSome(Pieces(chosen, permitted, days), account, day) <==>
                start <= day < end && OwnedOn(owned, sourceOf, source, customer, permitted, account, day)
      {
        Exact(owned, sourceOf, source, customer, start, end, permitted, chosen, days, account, day);
      }
    } else {
      hide InSome, OwnedOn;
      assert forall k :: 0 <= k < |chosen| ==> chosen[k] in chosen;
      Reversed(chosen, start, end, permitted, days);
      AnyoneSelected(owned, sourceOf, source, customer, start, end, permitted, chosen);
      hide Pieces, CoveredIds, ChosenIds, SomeSelected;
    }
  }

  lemma AnyoneSelected(owned: Assignments, sourceOf: map<AccountId, SourceId>, source: SourceId, customer: CustomerId,
                       start: Day, end: Day, permitted: Option<set<AccountId>>, chosen: seq<Assignment>)
    requires forall a :: a in chosen <==> a in owned && Selected(a, sourceOf, source, customer, start, end)
    ensures SomeSelected(owned, sourceOf, source, customer, start, end, permitted) <==>
            ChosenIds(chosen, permitted) != {}
  {
    assert forall i :: 0 <= i < |chosen| ==> chosen[i] in chosen;
    if SomeSelected(owned, sourceOf, source, customer, start, end, permitted) {
      var a :| a in owned && Selected(a, sourceOf, source, customer, start, end) && Permitted(permitted, a.account);
      assert a in chosen;
      var i :| 0 <= i < |chosen| && chosen[i] == a;
      assert a.account in ChosenIds(chosen, permitted);
    }
    if ChosenIds(chosen, permitted) != {} {
      var id :| id in ChosenIds(chosen, permitted);
    }
  }

  // --- What the windows are for ------------------------------------------------------------------

  /** Windows of different customers share no account and day, whatever accounts their callers may see. */
  lemma CustomersShareNothing(a: seq<Window>, b: seq<Window>, owned: Assignments, sourceOf: map<AccountId, SourceId>,
                              s: SourceId, t: SourceId, c: CustomerId, d: CustomerId, start: Day, end: Day,
                              permitted: Option<set<AccountId>>, permitted': Option<set<AccountId>>, account: AccountId, day: Day)
    requires Disjoint(owned) && c != d
    requires ExactFor(a, owned, sourceOf, s, c, start, end, permitted) && ExactFor(b, owned, sourceOf, t, d, start, end, permitted')
    ensures !(InSome(a, account, day) && InSome(b, account, day))
  {
    if InSome(a, account, day) && InSome(b, account, day) {
      var i :| 0 <= i < |owned| && owned[i].account == account && owned[i].customer == c && owned[i].Covers(day);
      var j :| 0 <= j < |owned| && owned[j].account == account && owned[j].customer == d && owned[j].Covers(day);
      OwnerIs(owned, i, day);
      OwnerIs(owned, j, day);
      assert false;
    }
  }

  /** Rows of one window. */
  ghost function InWindow(costs: Costs, source: SourceId, w: Window): set<Slice> {
    set k | k in costs && k.source == source && Holds(w, k.account, k.day)
  }

  /** Costs added up window by window. */
  ghost function WindowTotal(costs: Costs, metric: Metric, source: SourceId, windows: seq<Window>): int {
    if windows == [] then 0
    else WindowTotal(costs, metric, source, windows[..|windows| - 1])
         + Total(costs, metric, InWindow(costs, source, windows[|windows| - 1]))
  }

  ghost function InWindows(costs: Costs, source: SourceId, windows: seq<Window>): set<Slice> {
    set k | k in costs && k.source == source && InSome(windows, k.account, k.day)
  }

  lemma {:induction false} WindowTotalIsUnion(costs: Costs, metric: Metric, source: SourceId, windows: seq<Window>)
    requires Ordered(windows)
    ensures WindowTotal(costs, metric, source, windows) == Total(costs, metric, InWindows(costs, source, windows))
  {
    if windows == [] {
      assert InWindows(costs, source, windows) == {};
    } else {
      var n := |windows| - 1;
      var front := windows[..n];
      WindowTotalIsUnion(costs, metric, source, front);
      var a, b := InWindows(costs, source, front), InWindow(costs, source, windows[n]);
      forall k | k in a
        ensures k !in b
      {
        var i :| 0 <= i < n && Holds(front[i], k.account, k.day);
        assert windows[i].right <= windows[n].left;
      }
      assert InWindows(costs, source, windows) == a + b by {
        forall k | k in costs && k.source == source
          ensures InSome(windows, k.account, k.day) <==> InSome(front, k.account, k.day) || Holds(windows[n], k.account, k.day)
        {
          assert forall i :: 0 <= i < n ==> windows[i] == front[i];
        }
      }
      Sums.SumUnion(a, b, AmountOf(costs, metric));
    }
  }

  /** Summing window by window gives the sum of the permitted rows the customer owned day by day: nothing
      is missed at a boundary and nothing is counted twice. */
  lemma WindowsSumOwnedCosts(costs: Costs, metric: Metric, windows: seq<Window>, owned: Assignments, sourceOf: map<AccountId, SourceId>,
                             source: SourceId, customer: CustomerId, start: Day, end: Day, permitted: Option<set<AccountId>>)
    requires Disjoint(owned) && ExactFor(windows, owned, sourceOf, source, customer, start, end, permitted)
    requires forall k :: k in costs && k.source == source ==> k.account in sourceOf && sourceOf[k.account] == source
    ensures WindowTotal(costs, metric, source, windows) ==
            Total(costs, metric, set k | k in costs && k.source == source && start <= k.day < end
                                 && Permitted(permitted, k.account) && Owner(owned, k.account, k.day) == Some(customer))
  {
    WindowTotalIsUnion(costs, metric, source, windows);
    var mine := set k | k in costs && k.source == source && start <= k.day < end
                        && Permitted(permitted, k.account) && Owner(owned, k.account, k.day) == Some(customer);
    forall k | k in costs && k.source == source
      ensures k in InWindows(costs, source, windows) <==> k in mine
    {
      assert InSome(windows, k.account, k.day) <==> start <= k.day < end && OwnedOn(owned, sourceOf, source, customer, permitted, k.account, k.day);
      OwnedMeansOwner(owned, sourceOf, source, customer, permitted, k.account, k.day);
    }
    assert InWindows(costs, source, windows) == mine;
  }

  lemma OwnedMeansOwner(owned: Assignments, sourceOf: map<AccountId, SourceId>, source: SourceId, customer: CustomerId,
                        permitted: Option<set<AccountId>>, account: AccountId, day: Day)
    requires Disjoint(owned) && account in sourceOf && sourceOf[account] == source
    ensures OwnedOn(owned, sourceOf, source, customer, permitted, account, day) <==>
            Permitted(permitted, account) && Owner(owned, account, day) == Some(customer)
  {
    if OwnedOn(owned, sourceOf, source, customer, permitted, account, day) {
      var i :| 0 <= i < |owned| && owned[i].account == account && owned[i].customer == customer && owned[i].Covers(day);
      OwnerIs(owned, i, day);
    }
  }
}
