/** Effective-dated budget amounts: recurring limits and overrides of single months. */
module Budgets {
  import opened Options

  type Month = int

  /** A recurring amount, from a month on until `end` exclusive. */
  datatype Recurring = Recurring(amount: int, start: Month, end: Option<Month>) {
    predicate Covers(m: Month) {
      start <= m && (end.None? || m < end.value)
    }
  }

  type Amounts = seq<Recurring>

  /** Covers the month, and no other row that does starts later. */
  ghost predicate Effective(rows: Amounts, m: Month, a: Recurring) {
    a in rows && a.Covers(m) && forall b :: b in rows && b.Covers(m) ==> b.start <= a.start
  }

  /** What `set_recurring_amount` does to the rows that are there: an open row that starts
      earlier is closed, one that starts at the month or later is deleted. */
  function ClosedAt(rows: Amounts, e: Month): Amounts {
    if rows == [] then []
    else
      var before, last := ClosedAt(rows[..|rows| - 1], e), rows[|rows| - 1];
      if last.end.Some? then before + [last]
      else if last.start >= e then before
      else before + [last.(end := Some(e))]
  }

  /** The rows afterwards, without reference to how they are listed. */
  lemma {:induction false} ClosedRows(rows: Amounts, e: Month, b: Recurring)
    ensures b in ClosedAt(rows, e) <==>
            || (b in rows && b.end.Some?)
            || (b.end == Some(e) && b.start < e && b.(end := None) in rows)
  {
    if rows != [] {
      var n := |rows| - 1;
      ClosedRows(rows[..n], e, b);
      assert rows == rows[..n] + [rows[n]];
    }
  }

  function WithRecurring(rows: Amounts, amount: int, e: Month): Amounts {
    ClosedAt(rows, e) + [Recurring(amount, e, None)]
  }

  /** Every month before the change keeps its effective amount: nothing takes effect backwards. */
  lemma EarlierMonthsKeep(rows: Amounts, amount: int, e: Month, m: Month, value: int)
    requires m < e
    ensures (exists a :: Effective(rows, m, a) && a.amount == value) <==>
            (exists a :: Effective(WithRecurring(rows, amount, e), m, a) && a.amount == value)
  {
    var after := WithRecurring(rows, amount, e);
    forall b
      ensures b in after && b.Covers(m) <==> b.Covers(m) && ((b in rows && b.end.Some?) || (b.end == Some(e) && b.(end := None) in rows))
    {
      ClosedRows(rows, e, b);
    }
    if a :| Effective(rows, m, a) && a.amount == value {
      var image := if a.end.None? then a.(end := Some(e)) else a;
      assert image.end == Some(e) && a.end.None? ==> image.(end := None) == a;
      KeptEffective(rows, after, e, m, a, image);
    }
    if b :| Effective(after, m, b) && b.amount == value {
      var origin := if b in rows then b else b.(end := None);
      OriginEffective(rows, after, e, m, b, origin);
    }
  }

  lemma KeptEffective(rows: Amounts, after: Amounts, e: Month, m: Month, a: Recurring, image: Recurring)
    requires m < e && Effective(rows, m, a) && image == if a.end.None? then a.(end := Some(e)) else a
    requires forall b :: b in after && b.Covers(m) <==> b.Covers(m) && ((b in rows && b.end.Some?) || (b.end == Some(e) && b.(end := None) in rows))
    ensures Effective(after, m, image)
  {
    forall b | b in after && b.Covers(m)
      ensures b.start <= image.start
    {
      if !(b in rows && b.end.Some?) {
        assert b.(end := None).Covers(m);
      }
    }
    assert image.(end := None) in rows || image in rows;
  }

  lemma OriginEffective(rows: Amounts, after: Amounts, e: Month, m: Month, b: Recurring, origin: Recurring)
    requires m < e && Effective(after, m, b) && origin == if b in rows then b else b.(end := None)
    requires forall b :: b in after && b.Covers(m) <==> b.Covers(m) && ((b in rows && b.end.Some?) || (b.end == Some(e) && b.(end := None) in rows))
    ensures Effective(rows, m, origin)
  {
    forall a | a in rows && a.Covers(m)
      ensures a.start <= origin.start
    {
      var image := if a.end.None? then a.(end := Some(e)) else a;
      assert image.(end := None) == a || image == a;
      assert image in after;
    }
  }

  /** From the change on the new row decides exactly in the months that no closed row starting
      at the change or later covers. */
  lemma LaterMonthsChange(rows: Amounts, amount: int, e: Month, m: Month)
    requires e <= m
    ensures
      var added := Recurring(amount, e, None);
      (forall a :: Effective(WithRecurring(rows, amount, e), m, a) ==> a == added) <==>
      !exists b :: b in rows && b.end.Some? && e <= b.start && b.Covers(m)
  {
    var after, added := WithRecurring(rows, amount, e), Recurring(amount, e, None);
    forall b
      ensures b in after <==> b == added || (b in rows && b.end.Some?) || (b.end == Some(e) && b.start < e && b.(end := None) in rows)
    {
      ClosedRows(rows, e, b);
    }
    if exists b :: b in rows && b.end.Some? && e <= b.start && b.Covers(m) {
      var b :| b in rows && b.end.Some? && e <= b.start && b.Covers(m);
      var a := Latest(after, m, b);
      assert a == added ==> Effective(after, m, b);
    } else {
      assert Effective(after, m, added);
    }
  }

  lemma {:induction false} Latest(rows: Amounts, m: Month, b: Recurring) returns (a: Recurring)
    requires b in rows && b.Covers(m)
    ensures Effective(rows, m, a)
  {
    var n := |rows| - 1;
    var front := rows[..n];
    assert rows == front + [rows[n]];
    if exists c :: c in front && c.Covers(m) {
      var c :| c in front && c.Covers(m);
      a := Latest(front, m, c);
      if rows[n].Covers(m) && rows[n].start > a.start {
        a := rows[n];
      }
    } else {
      a := rows[n];
    }
  }

  // --- Months in order ---------------------------------------------------------------------------

  /** Rows that follow each other without gap or overlap, the last one open. */
  ghost predicate Tiling(rows: Amounts) {
    && (forall i :: 0 <= i < |rows| - 1 ==> rows[i].end == Some(rows[i + 1].start) && rows[i].start < rows[i + 1].start)
    && (rows != [] ==> rows[|rows| - 1].end.None?)
  }

  lemma {:induction false} TilingAscends(rows: Amounts, i: nat, j: nat)
    requires Tiling(rows) && i < j < |rows|
    ensures rows[i].end.Some? && rows[i].end.value <= rows[j].start && rows[i].start < rows[j].start
  {
    assert rows[j - 1].end == Some(rows[(j - 1) + 1].start) && rows[j - 1].start < rows[(j - 1) + 1].start;
    if i < j - 1 {
      TilingAscends(rows, i, j - 1);
    }
  }

  lemma {:induction false} OnlyClosed(rows: Amounts, e: Month)
    requires forall i :: 0 <= i < |rows| ==> rows[i].end.Some?
    ensures ClosedAt(rows, e) == rows
  {
    if rows != [] {
      OnlyClosed(rows[..|rows| - 1], e);
    }
  }

  /** Changes made in the order of their months keep the rows an exact tiling: from the first
      start on every month is covered by one row, and by one only. */
  lemma OrderedChangesTile(rows: Amounts, amount: int, e: Month)
    requires Tiling(rows) && (rows != [] ==> rows[|rows| - 1].start <= e)
    ensures Tiling(WithRecurring(rows, amount, e))
    ensures WithRecurring(rows, amount, e)[|WithRecurring(rows, amount, e)| - 1].start == e
  {
    if rows != [] {
      var n := |rows| - 1;
      forall i | 0 <= i < n
        ensures rows[i].end.Some?
      {
        TilingAscends(rows, i, n);
      }
      OnlyClosed(rows[..n], e);
      if rows[n].start >= e && n > 0 {
        assert rows[n - 1].end == Some(rows[n].start);
      }
    }
  }

  lemma TilingCoversOnce(rows: Amounts, m: Month) returns (i: nat)
    requires Tiling(rows) && rows != [] && rows[0].start <= m
    ensures i < |rows| && rows[i].Covers(m) && forall j: nat :: j < |rows| && rows[j].Covers(m) ==> j == i
  {
    i := 0;
    while !rows[i].Covers(m)
      invariant i < |rows| && rows[i].start <= m
      decreases |rows| - i
    {
      i := i + 1;
    }
    forall j: nat | j < |rows| && rows[j].Covers(m)
      ensures j == i
    {
      if j < i {
        TilingAscends(rows, j, i);
      } else if i < j {
        TilingAscends(rows, i, j);
      }
    }
  }

  /** Without an override, a change takes effect in its own month and in every later one. */
  lemma OrderedChangeDecides(rows: Amounts, amount: int, e: Month, m: Month, a: Recurring)
    requires Tiling(rows) && (rows != [] ==> rows[|rows| - 1].start <= e) && e <= m
    requires Effective(WithRecurring(rows, amount, e), m, a)
    ensures a == Recurring(amount, e, None)
  {
    LaterMonthsChange(rows, amount, e, m);
    forall b | b in rows && b.end.Some?
      ensures b.start < e
    {
      var i :| 0 <= i < |rows| && rows[i] == b;
      TilingAscends(rows, i, |rows| - 1);
    }
  }

  /** Out of order, a closed row that starts later keeps deciding its months. */
  lemma LaterClosedRowKeepsDeciding() returns (rows: Amounts)
    ensures Tiling(rows) && rows != [] && rows[|rows| - 1].start == 20
    ensures Effective(WithRecurring(rows, 3, 5), 15, Recurring(1, 10, Some(20)))
  {
    var kept := Recurring(1, 10, Some(20));
    rows := [kept, Recurring(2, 20, None)];
    ClosedRows(rows, 5, kept);
    forall b | b in WithRecurring(rows, 3, 5) && b.Covers(15)
      ensures b.start <= 10
    {
      ClosedRows(rows, 5, b);
    }
  }

  // --- The budget as it is changed ---------------------------------------------------------------------

  class Budget {
    var recurring: Amounts
    var overrides: map<Month, int>

    constructor ()
      ensures recurring == [] && overrides == map[]
    {
      recurring, overrides := [], map[];
    }

    /** An override of the month first, then a latest recurring amount that covers it. */
    method AmountFor(m: Month) returns (amount: Option<int>)
      ensures m in overrides ==> amount == Some(overrides[m])
      ensures m !in overrides && amount.None? ==> forall a :: a in recurring ==> !a.Covers(m)
      ensures m !in overrides && amount.Some? ==> exists a :: Effective(recurring, m, a) && a.amount == amount.value
    {
      if m in overrides {
        return Some(overrides[m]);
      }
      var latest: Option<Recurring> := None;
      for i := 0 to |recurring|
        invariant latest.None? ==> forall a :: a in recurring[..i] ==> !a.Covers(m)
        invariant latest.Some? ==> Effective(recurring[..i], m, latest.value)
      {
        assert recurring[..i + 1] == recurring[..i] + [recurring[i]];
        if recurring[i].Covers(m) && (latest.None? || latest.value.start < recurring[i].start) {
          latest := Some(recurring[i]);
        }
      }
      assert recurring[..|recurring|] == recurring;
      amount := if latest.None? then None else Some(latest.value.amount);
    }

    method SetRecurringAmount(amount: int, from: Month)
      modifies this`recurring
      ensures recurring == WithRecurring(old(recurring), amount, from)
    {
      var rows: Amounts := [];
      for i := 0 to |recurring|
        invariant recurring == old(recurring) && rows == ClosedAt(recurring[..i], from)
      {
        assert recurring[..i + 1][..i] == recurring[..i];
        var current := recurring[i];
        if current.end.Some? {
          rows := rows + [current];
        } else if current.start < from {
          rows := rows + [current.(end := Some(from))];
        }
      }
      assert recurring[..|recurring|] == recurring;
      recurring := rows + [Recurring(amount, from, None)];
    }

    /** One override per month; recurring amounts stay. */
    method SetOverride(m: Month, amount: int)
      modifies this`overrides
      ensures overrides == old(overrides)[m := amount]
    {
      overrides := overrides[m := amount];
    }
  }
}
