/** Transfers of accounts, the restamping that follows each, and publications of costs, interleaved.

    A transfer commits first; its request then lists the assignments, reads the rows, and updates
    them one by one. A publication reads the owners and later replaces a month in one commit. */
module Stamping {
  import opened Options
  import opened Ownership

  /** A stored row: replacing a month deletes rows and inserts new ones. */
  datatype RowId = RowId(slice: Slice, born: nat)

  /** `read` says under which number of transfers the stamp is the owner; `written` when the stamp
      was written. */
  datatype Row = Row(amounts: Amounts, customer: Option<CustomerId>, read: nat, written: nat)

  datatype Phase =
    | Waiting
    | Listed(seen: nat)
    | Updating(seen: nat, at: nat, todo: set<RowId>)
    | Finished(at: nat)
    | Abandoned

  /** The restamping of an account from a day on, requested when `asOf` transfers had been made. */
  datatype Restamp = Restamp(account: AccountId, start: Day, asOf: nat, phase: Phase)

  datatype Move = Move(account: AccountId, customer: CustomerId, start: Day)

  /** A publication that has read the owners when `read` transfers had been made. */
  datatype Publication = Publication(source: SourceId, first: Day, last: Day, records: map<Slice, Amounts>, read: nat)

  /** `history[n]` are the assignments after the first `n` transfers. */
  datatype System = System(
    clock: nat,
    history: seq<Assignments>,
    moves: seq<Move>,
    costs: map<RowId, Row>,
    restamps: seq<Restamp>,
    publications: map<nat, Publication>)

  datatype Step =
    | Transfer(move: Move, open: Option<nat>)
    | Repeat(account: AccountId, start: Day)
    | ListOwners(n: nat)
    | ReadRows(n: nat)
    | UpdateRow(n: nat, id: RowId)
    | Finish(n: nat)
    | GiveUp(n: nat)
    | ReadOwners(tx: nat, source: SourceId, first: Day, last: Day, records: map<Slice, Amounts>)
    | Commit(tx: nat)
    | Abort(tx: nat)

  ghost function OwnerAt(sys: System, n: nat, id: RowId): Option<CustomerId>
    requires n < |sys.history|
  {
    Owner(sys.history[n], id.slice.account, id.slice.day)
  }

  predicate Concerns(r: Restamp, id: RowId) {
    id.slice.account == r.account && r.start <= id.slice.day
  }

  function WithPhase(sys: System, n: nat, phase: Phase): System
    requires n < |sys.restamps|
  {
    sys.(restamps := sys.restamps[n := sys.restamps[n].(phase := phase)])
  }

  /** `ensure_assignment` commits: the open assignment ends, the new one starts. */
  predicate CanTransfer(sys: System, m: Move, open: Option<nat>)
    requires sys.history != []
  {
    var owned := sys.history[|sys.history| - 1];
    && m.start <= MAX_DAY
    && (open.Some? ==> open.value < |owned| && owned[open.value].account == m.account && owned[open.value].end.None?
                       && owned[open.value].customer != m.customer && owned[open.value].start < m.start)
    && (open.None? ==> forall i :: 0 <= i < |owned| && owned[i].account == m.account ==> owned[i].end.Some? && owned[i].end.value <= m.start)
  }

  function AfterTransfer(sys: System, m: Move, open: Option<nat>): System
    requires sys.history != [] && CanTransfer(sys, m, open)
  {
    var owned := sys.history[|sys.history| - 1];
    sys.(history := sys.history + [WithTransfer(owned, open, m.account, m.customer, m.start)],
         moves := sys.moves + [m],
         restamps := sys.restamps + [Restamp(m.account, m.start, |sys.moves| + 1, Waiting)])
  }

  /** The rows of the account from the day on are read; those that are stamped as the list of
      assignments says are left alone. */
  ghost function AfterReadRows(sys: System, n: nat): System
    requires n < |sys.restamps| && sys.restamps[n].phase.Listed? && sys.restamps[n].phase.seen < |sys.history|
  {
    var r := sys.restamps[n];
    var todo := set id | id in sys.costs && Concerns(r, id) && sys.costs[id].customer != OwnerAt(sys, r.phase.seen, id);
    WithPhase(sys, n, Updating(r.phase.seen, sys.clock, todo)).(
      costs := map id | id in sys.costs ::
        if Concerns(r, id) && id !in todo && sys.costs[id].read < r.phase.seen then sys.costs[id].(read := r.phase.seen) else sys.costs[id])
  }

  /** One row gets the owner of the list, whatever its stamp is by now; a row that was replaced
      since is not there any more. */
  ghost function AfterUpdateRow(sys: System, n: nat, id: RowId): System
    requires n < |sys.restamps| && sys.restamps[n].phase.Updating? && sys.restamps[n].phase.seen < |sys.history|
  {
    var p := sys.restamps[n].phase;
    WithPhase(sys, n, p.(todo := p.todo - {id})).(
      costs := if id in sys.costs then sys.costs[id := Row(sys.costs[id].amounts, OwnerAt(sys, p.seen, id), p.seen, sys.clock)]
               else sys.costs)
  }

  ghost function AfterCommit(sys: System, tx: nat): System
    requires tx in sys.publications && sys.publications[tx].read < |sys.history|
  {
    var p := sys.publications[tx];
    var kept := map id | id in sys.costs && !id.slice.InMonth(p.source, p.first, p.last) :: sys.costs[id];
    var rows := map s | s in p.records :: RowId(s, sys.clock) := Row(p.records[s], OwnerAt(sys, p.read, RowId(s, sys.clock)), p.read, sys.clock);
    AfterAbort(sys, tx).(costs := kept + rows)
  }

  function AfterAbort(sys: System, tx: nat): System {
    sys.(publications := map t | t in sys.publications && t != tx :: sys.publications[t])
  }

  ghost predicate Effect(sys: System, step: Step, next: System)
    requires sys.history != []
  {
    match step
    case Transfer(m, open) => CanTransfer(sys, m, open) && next == AfterTransfer(sys, m, open)
    case Repeat(account, start) => next == sys.(restamps := sys.restamps + [Restamp(account, start, |sys.moves|, Waiting)])
    case ListOwners(n) =>
      n < |sys.restamps| && sys.restamps[n].phase.Waiting? && next == WithPhase(sys, n, Listed(|sys.moves|))
    case ReadRows(n) =>
      && n < |sys.restamps| && sys.restamps[n].phase.Listed? && sys.restamps[n].phase.seen < |sys.history|
      && next == AfterReadRows(sys, n)
    case UpdateRow(n, id) =>
      && n < |sys.restamps| && sys.restamps[n].phase.Updating? && sys.restamps[n].phase.seen < |sys.history|
      && id in sys.restamps[n].phase.todo && next == AfterUpdateRow(sys, n, id)
    case Finish(n) =>
      && n < |sys.restamps| && sys.restamps[n].phase.Updating? && sys.restamps[n].phase.todo == {}
      && next == WithPhase(sys, n, Finished(sys.restamps[n].phase.at))
    case GiveUp(n) => n < |sys.restamps| && !sys.restamps[n].phase.Finished? && next == WithPhase(sys, n, Abandoned)
    case ReadOwners(tx, source, first, last, records) =>
      && tx !in sys.publications && (forall s :: s in records ==> s.InMonth(source, first, last))
      && next == sys.(publications := sys.publications[tx := Publication(source, first, last, records, |sys.moves|)])
    case Commit(tx) =>
      tx in sys.publications && sys.publications[tx].read < |sys.history| && next == AfterCommit(sys, tx)
    case Abort(tx) => tx in sys.publications && next == AfterAbort(sys, tx)
  }

  ghost predicate Next(sys: System, step: Step, next: System) {
    sys.history != [] && next.clock == sys.clock + 1 && Effect(sys, step, next.(clock := sys.clock))
  }

  ghost predicate Initial(sys: System) {
    && |sys.history| == 1 && Disjoint(sys.history[0])
    && sys.moves == [] && sys.costs == map[] && sys.restamps == [] && sys.publications == map[]
  }

  ghost predicate Run(states: seq<System>, steps: seq<Step>) {
    && |states| == |steps| + 1
    && Initial(states[0])
    && forall i :: 0 <= i < |steps| ==> Next(states[i], steps[i], states[i + 1])
  }

  // --- What the steps do ----------------------------------------------------------------------

  /** A transfer can be made exactly when `ensure_assignment` assigns the account. */
  lemma TransferExactly(sys: System, m: Move)
    requires sys.history != [] && Disjoint(sys.history[|sys.history| - 1]) && m.start <= MAX_DAY
    ensures (exists open :: CanTransfer(sys, m, open)) <==>
            Outcome(sys.history[|sys.history| - 1], m.account, m.customer, m.start, Transfer.Assigned)
  {
    var owned := sys.history[|sys.history| - 1];
    if HasOpen(owned, m.account) {
      var i :| OpenAt(owned, m.account, i);
      forall j | OpenAt(owned, m.account, j)
        ensures j == i
      {
        if j != i {
          OpenIsLast(owned, i, j);
        }
      }
      assert Outcome(owned, m.account, m.customer, m.start, Transfer.Assigned) ==> CanTransfer(sys, m, Some(i));
      assert CanTransfer(sys, m, None) ==> false;
    } else {
      assert forall i :: 0 <= i < |owned| && owned[i].account == m.account ==> !OpenAt(owned, m.account, i);
      assert CanTransfer(sys, m, None) <==> EndedBy(owned, m.account, m.start);
      forall open: Option<nat> | CanTransfer(sys, m, open)
        ensures open == None
      {
        assert open.Some? ==> OpenAt(owned, m.account, open.value);
      }
    }
  }

  /** A restamping goes through the rows of its account from its day on, and of these exactly the ones
      whose stamp is not the owner it has listed; no stamp changes yet. */
  lemma RowsToUpdate(sys: System, step: Step, next: System)
    requires Next(sys, step, next) && step.ReadRows?
    ensures
      && step.n < |sys.restamps| && step.n < |next.restamps| && sys.restamps[step.n].phase.Listed? && next.restamps[step.n].phase.Updating?
      && var r := sys.restamps[step.n];
      && r.phase.seen < |sys.history|
      && (forall id :: id in next.restamps[step.n].phase.todo <==>
            && id in sys.costs && id.slice.account == r.account && r.start <= id.slice.day
            && sys.costs[id].customer != Owner(sys.history[r.phase.seen], id.slice.account, id.slice.day))
      && next.costs.Keys == sys.costs.Keys
      && forall id :: id in sys.costs ==> next.costs[id].customer == sys.costs[id].customer && next.costs[id].amounts == sys.costs[id].amounts
  {
    hide Owner;
  }

  // --- What every step keeps -------------------------------------------------------------------

  ghost predicate HistoryHolds(sys: System) {
    && |sys.history| == |sys.moves| + 1
    && (forall i :: 0 <= i < |sys.history| ==> Disjoint(sys.history[i]))
    && (forall i :: 0 <= i < |sys.moves| ==>
          Transferred(sys.history[i], sys.history[i + 1], sys.moves[i].account, sys.moves[i].customer, sys.moves[i].start))
  }

  /** A stamp is the owner as its writer read it. */
  ghost predicate RowHolds(sys: System, id: RowId, row: Row) {
    row.read < |sys.history| && row.written < sys.clock && row.customer == OwnerAt(sys, row.read, id)
  }

  ghost predicate RowsHold(sys: System) {
    forall id :: id in sys.costs ==> RowHolds(sys, id, sys.costs[id])
  }

  /** The stamp was written after the restamping had read its rows, or agrees with what it read. */
  predicate Reached(r: Restamp, row: Row)
    requires r.phase.Updating? || r.phase.Finished?
  {
    row.read >= r.asOf || row.written > r.phase.at
  }

  ghost predicate RestampHolds(sys: System, r: Restamp) {
    && r.asOf < |sys.history|
    && (r.phase.Listed? || r.phase.Updating? ==> r.asOf <= r.phase.seen < |sys.history|)
    && (r.phase.Updating? || r.phase.Finished? ==>
          && r.phase.at < sys.clock
          && forall id :: id in sys.costs && Concerns(r, id) && (r.phase.Updating? ==> id !in r.phase.todo) ==> Reached(r, sys.costs[id]))
  }

  ghost predicate RestampsHold(sys: System) {
    forall n :: 0 <= n < |sys.restamps| ==> RestampHolds(sys, sys.restamps[n])
  }

  /** Every transfer is followed by a restamping. */
  ghost predicate Followed(sys: System) {
    forall t: nat :: t < |sys.moves| ==> IsFollowed(sys, t)
  }

  predicate Follows(sys: System, t: nat, n: nat)
    requires t < |sys.moves| && n < |sys.restamps|
  {
    var r := sys.restamps[n];
    r.account == sys.moves[t].account && r.start == sys.moves[t].start && r.asOf == t + 1
  }

  ghost predicate IsFollowed(sys: System, t: nat)
    requires t < |sys.moves|
  {
    exists n :: 0 <= n < |sys.restamps| && Follows(sys, t, n)
  }

  ghost predicate Inv(sys: System) {
    && HistoryHolds(sys) && RowsHold(sys) && RestampsHold(sys) && Followed(sys)
    && forall tx :: tx in sys.publications ==> sys.publications[tx].read < |sys.history|
  }

  lemma InitialInv(sys: System)
    requires Initial(sys)
    ensures Inv(sys)
  {
  }

  lemma TransferHistory(sys: System, m: Move, open: Option<nat>)
    requires HistoryHolds(sys) && CanTransfer(sys, m, open)
    ensures HistoryHolds(AfterTransfer(sys, m, open))
  {
    var owned := sys.history[|sys.history| - 1];
    assert open.Some? ==> OpenAt(owned, m.account, open.value);
    TransferDisjoint(owned, open, m.account, m.customer, m.start);
    TransferOwners(owned, open, m.account, m.customer, m.start);
    hide Transferred, Disjoint, WithTransfer;
  }

  lemma TransferFollowed(sys: System, m: Move, open: Option<nat>)
    requires HistoryHolds(sys) && Followed(sys) && CanTransfer(sys, m, open)
    ensures Followed(AfterTransfer(sys, m, open))
  {
    var next := AfterTransfer(sys, m, open);
    forall t: nat | t < |next.moves|
      ensures IsFollowed(next, t)
    {
      if t < |sys.moves| {
        assert IsFollowed(sys, t);
        var n :| 0 <= n < |sys.restamps| && Follows(sys, t, n);
        assert Follows(next, t, n);
      } else {
        assert Follows(next, t, |sys.restamps|);
      }
    }
  }

  /** More history, later time: what rows and restampings are known to be stays true. */
  lemma RowsLater(sys: System, next: System)
    requires RowsHold(sys) && next.costs == sys.costs && sys.history <= next.history && sys.clock <= next.clock
    ensures RowsHold(next)
  {
    forall id | id in next.costs
      ensures RowHolds(next, id, next.costs[id])
    {
      assert RowHolds(sys, id, sys.costs[id]);
    }
  }

  lemma RestampLater(sys: System, next: System, r: Restamp)
    requires RestampHolds(sys, r) && next.costs == sys.costs && |sys.history| <= |next.history| && sys.clock <= next.clock
    ensures RestampHolds(next, r)
  {
  }

  lemma FollowedLater(sys: System, next: System)
    requires Followed(sys) && next.moves == sys.moves && |next.restamps| >= |sys.restamps|
    requires forall n :: 0 <= n < |sys.restamps| ==> next.restamps[n] == sys.restamps[n].(phase := next.restamps[n].phase)
    ensures Followed(next)
  {
    forall t: nat | t < |next.moves|
      ensures IsFollowed(next, t)
    {
      assert IsFollowed(sys, t);
      var n :| 0 <= n < |sys.restamps| && Follows(sys, t, n);
      assert Follows(next, t, n);
    }
  }

  lemma FollowedSame(sys: System, next: System)
    requires Followed(sys) && next.moves == sys.moves && next.restamps == sys.restamps
    ensures Followed(next)
  {
    FollowedLater(sys, next);
  }

  lemma TransferKept(sys: System, m: Move, open: Option<nat>)
    requires Inv(sys) && CanTransfer(sys, m, open)
    ensures Inv(AfterTransfer(sys, m, open).(clock := sys.clock + 1))
  {
    var next := AfterTransfer(sys, m, open).(clock := sys.clock + 1);
    TransferHistory(sys, m, open);
    TransferFollowed(sys, m, open);
    RowsLater(sys, next);
    forall n | 0 <= n < |next.restamps|
      ensures RestampHolds(next, next.restamps[n])
    {
      if n < |sys.restamps| {
        RestampLater(sys, next, sys.restamps[n]);
      }
    }
    FollowedSame(AfterTransfer(sys, m, open), next);
    hide RowsHold, Followed, WithTransfer, Disjoint, Transferred;
  }

  /** One restamping moves, or one is requested, and nothing else changes. */
  lemma RestampKept(sys: System, next: System, n: nat)
    requires Inv(sys) && next == sys.(restamps := next.restamps, clock := sys.clock + 1)
    requires |sys.restamps| <= |next.restamps| <= |sys.restamps| + 1
    requires forall k :: 0 <= k < |sys.restamps| && k != n ==> next.restamps[k] == sys.restamps[k]
    requires n < |sys.restamps| ==> next.restamps[n] == sys.restamps[n].(phase := next.restamps[n].phase)
    requires |next.restamps| > |sys.restamps| ==> n == |sys.restamps|
    requires n < |next.restamps| && RestampHolds(next, next.restamps[n])
    ensures Inv(next)
  {
    RowsLater(sys, next);
    FollowedLater(sys, next);
    forall k | 0 <= k < |next.restamps|
      ensures RestampHolds(next, next.restamps[k])
    {
      if k != n {
        RestampLater(sys, next, sys.restamps[k]);
      }
    }
    hide RowsHold, Followed, RestampHolds, Disjoint, Transferred;
  }

  lemma ReadRowsKept(sys: System, n: nat)
    requires Inv(sys) && n < |sys.restamps| && sys.restamps[n].phase.Listed? && sys.restamps[n].phase.seen < |sys.history|
    ensures Inv(AfterReadRows(sys, n).(clock := sys.clock + 1))
  {
    var r, next := sys.restamps[n], AfterReadRows(sys, n).(clock := sys.clock + 1);
    assert RestampHolds(sys, r);
    hide Owner, Disjoint, Transferred;
    forall id | id in next.costs
      ensures RowHolds(next, id, next.costs[id]) && next.costs[id].written == sys.costs[id].written && next.costs[id].read >= sys.costs[id].read
    {
      assert RowHolds(sys, id, sys.costs[id]);
    }
    forall k | 0 <= k < |next.restamps|
      ensures RestampHolds(next, next.restamps[k])
    {
      assert RestampHolds(sys, sys.restamps[k]);
      if k != n {
        MoreReached(sys, next, sys.restamps[k]);
      }
    }
    FollowedLater(sys, next);
  }

  /** Rows that were read later than before, or written now, stay within reach. */
  lemma MoreReached(sys: System, next: System, r: Restamp)
    requires RestampHolds(sys, r) && next.history == sys.history && next.clock == sys.clock + 1
    requires forall id :: id in next.costs ==>
               next.costs[id].written == sys.clock ||
               (id in sys.costs && next.costs[id].written == sys.costs[id].written && next.costs[id].read >= sys.costs[id].read)
    ensures RestampHolds(next, r)
  {
  }

  lemma UpdatedRows(sys: System, n: nat, id: RowId)
    requires Inv(sys) && n < |sys.restamps| && sys.restamps[n].phase.Updating? && sys.restamps[n].phase.seen < |sys.history|
    ensures forall k :: k in AfterUpdateRow(sys, n, id).costs ==>
              RowHolds(AfterUpdateRow(sys, n, id).(clock := sys.clock + 1), k, AfterUpdateRow(sys, n, id).costs[k])
  {
    var next := AfterUpdateRow(sys, n, id).(clock := sys.clock + 1);
    hide Owner, Disjoint, Transferred;
    forall k | k in next.costs
      ensures RowHolds(next, k, next.costs[k])
    {
      assert RowHolds(sys, k, sys.costs[k]);
    }
  }

  lemma UpdateRowKept(sys: System, n: nat, id: RowId)
    requires Inv(sys) && n < |sys.restamps| && sys.restamps[n].phase.Updating? && sys.restamps[n].phase.seen < |sys.history|
    requires id in sys.restamps[n].phase.todo
    ensures Inv(AfterUpdateRow(sys, n, id).(clock := sys.clock + 1))
  {
    var r, next := sys.restamps[n], AfterUpdateRow(sys, n, id).(clock := sys.clock + 1);
    assert RestampHolds(sys, r);
    UpdatedRows(sys, n, id);
    hide OwnerAt, Disjoint, Transferred, RowHolds;
    forall k | 0 <= k < |next.restamps|
      ensures RestampHolds(next, next.restamps[k])
    {
      assert RestampHolds(sys, sys.restamps[k]);
      if k != n {
        MoreReached(sys, next, sys.restamps[k]);
      }
    }
    FollowedLater(sys, next);
  }

  lemma CommittedRows(sys: System, tx: nat)
    requires Inv(sys) && tx in sys.publications && sys.publications[tx].read < |sys.history|
    ensures
      var next := AfterCommit(sys, tx).(clock := sys.clock + 1);
      forall k :: k in next.costs ==>
        RowHolds(next, k, next.costs[k]) && (next.costs[k].written == sys.clock || (k in sys.costs && next.costs[k] == sys.costs[k]))
  {
    var next := AfterCommit(sys, tx).(clock := sys.clock + 1);
    hide Owner, Disjoint, Transferred;
    forall k | k in next.costs
      ensures RowHolds(next, k, next.costs[k])
      ensures next.costs[k].written == sys.clock || (k in sys.costs && next.costs[k] == sys.costs[k])
    {
      if !(k.born == sys.clock && k.slice in sys.publications[tx].records) {
        assert RowHolds(sys, k, sys.costs[k]);
      }
    }
  }

  lemma CommitKept(sys: System, tx: nat)
    requires Inv(sys) && tx in sys.publications && sys.publications[tx].read < |sys.history|
    ensures Inv(AfterCommit(sys, tx).(clock := sys.clock + 1))
  {
    var next := AfterCommit(sys, tx).(clock := sys.clock + 1);
    CommittedRows(sys, tx);
    hide OwnerAt, Disjoint, Transferred, RowHolds;
    forall k | 0 <= k < |next.restamps|
      ensures RestampHolds(next, next.restamps[k])
    {
      assert RestampHolds(sys, sys.restamps[k]);
      MoreReached(sys, next, sys.restamps[k]);
    }
    FollowedLater(sys, next);
  }

  lemma PublicationKept(sys: System, next: System)
    requires Inv(sys) && next == sys.(publications := next.publications, clock := sys.clock + 1)
    requires forall tx :: tx in next.publications ==> next.publications[tx].read < |sys.history|
    ensures Inv(next)
  {
    RowsLater(sys, next);
    FollowedLater(sys, next);
    forall k | 0 <= k < |next.restamps|
      ensures RestampHolds(next, next.restamps[k])
    {
      RestampLater(sys, next, sys.restamps[k]);
    }
    hide RowsHold, Followed, RestampHolds, Disjoint, Transferred;
  }

  lemma PhaseKept(sys: System, n: nat, phase: Phase)
    requires Inv(sys) && n < |sys.restamps|
    requires
      var p := sys.restamps[n].phase;
      || (p.Waiting? && phase == Listed(|sys.moves|))
      || (p.Updating? && p.todo == {} && phase == Finished(p.at))
      || phase.Abandoned?
    ensures Inv(WithPhase(sys, n, phase).(clock := sys.clock + 1))
  {
    var next := WithPhase(sys, n, phase).(clock := sys.clock + 1);
    assert RestampHolds(sys, sys.restamps[n]) && HistoryHolds(sys);
    hide Inv, Owner, Disjoint, Transferred;
    RestampKept(sys, next, n);
  }

  lemma StepKept(sys: System, step: Step, next: System)
    requires Inv(sys) && Next(sys, step, next)
    ensures Inv(next)
  {
    assert HistoryHolds(sys) && forall tx :: tx in sys.publications ==> sys.publications[tx].read < |sys.history|;
    hide Inv, CanTransfer, AfterTransfer, AfterReadRows, AfterUpdateRow, AfterCommit, WithPhase, Disjoint, Transferred;
    match step
    case Transfer(m, open) => TransferKept(sys, m, open);
    case Repeat(account, start) => RestampKept(sys, next, |sys.restamps|);
    case ListOwners(n) => PhaseKept(sys, n, Listed(|sys.moves|));
    case ReadRows(n) => ReadRowsKept(sys, n);
    case UpdateRow(n, id) => UpdateRowKept(sys, n, id);
    case Finish(n) => PhaseKept(sys, n, Finished(sys.restamps[n].phase.at));
    case GiveUp(n) => PhaseKept(sys, n, Abandoned);
    case ReadOwners(tx, source, first, last, records) => PublicationKept(sys, next);
    case Commit(tx) => CommitKept(sys, tx);
    case Abort(tx) => PublicationKept(sys, next);
  }

  lemma {:induction false} Reachable(states: seq<System>, steps: seq<Step>, i: nat)
    requires Run(states, steps) && i < |states|
    ensures Inv(states[i])
  {
    if i == 0 {
      InitialInv(states[0]);
    } else {
      Reachable(states, steps, i - 1);
      hide Inv, Next, Initial;
      StepKept(states[i - 1], steps[i - 1], states[i]);
    }
  }

  // --- Wrong stamps ---------------------------------------------------------------------------------

  /** The transfer decides the owner of the row's account and day. */
  predicate Reaches(m: Move, id: RowId) {
    id.slice.account == m.account && m.start <= id.slice.day
  }

  /** The last transfer that reaches the row. */
  ghost predicate LastReaching(sys: System, id: RowId, t: nat) {
    t < |sys.moves| && Reaches(sys.moves[t], id) && forall k :: t < k < |sys.moves| ==> !Reaches(sys.moves[k], id)
  }

  /** The owner after `n` transfers is the customer of the last one that reaches the row, if any of
      those after the first `a` does. */
  lemma {:induction false} OwnerAfter(sys: System, id: RowId, a: nat, n: nat)
    requires HistoryHolds(sys) && a <= n <= |sys.moves|
    ensures (forall k :: a <= k < n ==> !Reaches(sys.moves[k], id)) ==> OwnerAt(sys, n, id) == OwnerAt(sys, a, id)
    ensures forall t :: a <= t < n && Reaches(sys.moves[t], id) && (forall k :: t < k < n ==> !Reaches(sys.moves[k], id)) ==>
                          OwnerAt(sys, n, id) == Some(sys.moves[t].customer)
    decreases n
  {
    if a < n {
      OwnerAfter(sys, id, a, n - 1);
      assert Transferred(sys.history[n - 1], sys.history[n], sys.moves[n - 1].account, sys.moves[n - 1].customer, sys.moves[n - 1].start);
      hide Owner, Disjoint, HistoryHolds;
      assert OwnerAt(sys, n, id) == if Reaches(sys.moves[n - 1], id) then Some(sys.moves[n - 1].customer) else OwnerAt(sys, n - 1, id);
    }
  }

  ghost predicate Wrong(sys: System, id: RowId)
    requires HistoryHolds(sys) && id in sys.costs
  {
    sys.costs[id].customer != OwnerAt(sys, |sys.moves|, id)
  }

  /** A stamp is wrong exactly if the last transfer that reaches the row was made after its stamp's
      owners were read, and to another customer than the stamp says. */
  lemma WrongExactly(states: seq<System>, steps: seq<Step>, i: nat, id: RowId)
    requires Run(states, steps) && i < |states| && id in states[i].costs
    ensures HistoryHolds(states[i])
    ensures Wrong(states[i], id) <==>
            exists t: nat :: LastReaching(states[i], id, t) && states[i].costs[id].read <= t
                             && states[i].costs[id].customer != Some(states[i].moves[t].customer)
  {
    hide Next;
    Reachable(states, steps, i);
    var sys := states[i];
    var a, n := sys.costs[id].read, |sys.moves|;
    assert RowHolds(sys, id, sys.costs[id]);
    OwnerAfter(sys, id, a, n);
    hide Owner, Inv, Run;
    if exists k :: a <= k < n && Reaches(sys.moves[k], id) {
      var t := LastOf(sys, id, a);
    }
  }

  lemma {:induction false} LastOf(sys: System, id: RowId, a: nat) returns (t: nat)
    requires exists k :: a <= k < |sys.moves| && Reaches(sys.moves[k], id)
    ensures LastReaching(sys, id, t) && t >= a
  {
    t := |sys.moves| - 1;
    while !Reaches(sys.moves[t], id)
      invariant a <= t < |sys.moves|
      invariant forall k :: t < k < |sys.moves| ==> !Reaches(sys.moves[k], id)
      decreases t
    {
      t := t - 1;
    }
  }

  /** Where wrong stamps come from: the restamping after that transfer is still under way or was
      given up, or the stamp was written after it had read its rows, by a publication or an older
      restamping that had read the owners before the transfer. */
  lemma WrongCause(states: seq<System>, steps: seq<Step>, i: nat, id: RowId) returns (t: nat, n: nat)
    requires Run(states, steps) && i < |states| && id in states[i].costs
    requires HistoryHolds(states[i]) && Wrong(states[i], id)
    ensures LastReaching(states[i], id, t) && states[i].costs[id].read <= t
    ensures n < |states[i].restamps| && Follows(states[i], t, n)
    ensures states[i].restamps[n].phase.Finished? ==> states[i].costs[id].written > states[i].restamps[n].phase.at
  {
    hide Next;
    WrongExactly(states, steps, i, id);
    Reachable(states, steps, i);
    var sys := states[i];
    t :| LastReaching(sys, id, t) && sys.costs[id].read <= t && sys.costs[id].customer != Some(sys.moves[t].customer);
    assert IsFollowed(sys, t);
    n :| 0 <= n < |sys.restamps| && Follows(sys, t, n);
    assert RestampHolds(sys, sys.restamps[n]);
    hide Run, Inv, Owner;
  }

  // --- Transfers one at a time ------------------------------------------------------------------------

  ghost predicate Settled(sys: System) {
    forall n :: 0 <= n < |sys.restamps| ==> sys.restamps[n].phase.Finished?
  }

  /** No publication is between reading the owners and its commit, and no restamping is left. */
  ghost predicate Quiet(sys: System) {
    sys.publications == map[] && Settled(sys)
  }

  predicate WrittenAfter(r: Restamp, row: Row) {
    (r.phase.Updating? || r.phase.Finished?) && row.written > r.phase.at
  }

  /** Everything that is under way has read, or will read, the owners as they are. */
  ghost predicate UpToDate(sys: System) {
    && (forall tx :: tx in sys.publications ==> sys.publications[tx].read == |sys.moves|)
    && (forall n :: 0 <= n < |sys.restamps| && !sys.restamps[n].phase.Finished? ==> sys.restamps[n].asOf == |sys.moves|)
    && (forall n, id :: 0 <= n < |sys.restamps| && id in sys.costs && WrittenAfter(sys.restamps[n], sys.costs[id]) ==>
          sys.costs[id].read >= sys.restamps[n].asOf)
  }

  lemma UpToDateKept(sys: System, step: Step, next: System)
    requires Inv(sys) && UpToDate(sys) && Next(sys, step, next) && (step.Transfer? ==> Quiet(sys))
    ensures UpToDate(next)
  {
    assert |sys.history| == |sys.moves| + 1;
    assert forall id :: id in sys.costs ==> RowHolds(sys, id, sys.costs[id]);
    assert forall n :: 0 <= n < |sys.restamps| ==> RestampHolds(sys, sys.restamps[n]);
    hide Inv, OwnerAt, WithTransfer, CanTransfer, UpToDate, RowHolds, RestampHolds, WithPhase, AfterReadRows, AfterUpdateRow, AfterCommit;
    match step
    case ReadRows(n) => ReadRowsUpToDate(sys, n, next);
    case UpdateRow(n, id) => UpdateRowUpToDate(sys, n, id, next);
    case Commit(tx) => CommitUpToDate(sys, tx, next);
    case _ => OtherUpToDate(sys, step, next);
  }

  lemma OtherUpToDate(sys: System, step: Step, next: System)
    requires UpToDate(sys) && Next(sys, step, next) && (step.Transfer? ==> Quiet(sys))
    requires !step.ReadRows? && !step.UpdateRow? && !step.Commit?
    ensures UpToDate(next)
  {
    hide WithTransfer, CanTransfer, AfterReadRows, AfterUpdateRow, AfterCommit, OwnerAt;
  }

  lemma ReadRowsUpToDate(sys: System, n: nat, next: System)
    requires UpToDate(sys) && n < |sys.restamps| && sys.restamps[n].phase.Listed? && sys.restamps[n].phase.seen < |sys.history|
    requires forall id :: id in sys.costs ==> RowHolds(sys, id, sys.costs[id])
    requires next == AfterReadRows(sys, n).(clock := sys.clock + 1)
    ensures UpToDate(next)
  {
    hide OwnerAt;
    forall id | id in next.costs
      ensures id in sys.costs && next.costs[id].written == sys.costs[id].written < sys.clock && next.costs[id].read >= sys.costs[id].read
    {
      assert RowHolds(sys, id, sys.costs[id]);
    }
  }

  lemma UpdateRowUpToDate(sys: System, n: nat, id: RowId, next: System)
    requires UpToDate(sys) && n < |sys.restamps| && sys.restamps[n].phase.Updating? && sys.restamps[n].phase.seen < |sys.history|
    requires |sys.history| == |sys.moves| + 1
    requires forall k :: 0 <= k < |sys.restamps| ==> RestampHolds(sys, sys.restamps[k])
    requires next == AfterUpdateRow(sys, n, id).(clock := sys.clock + 1)
    ensures UpToDate(next)
  {
    hide OwnerAt;
    assert forall k :: 0 <= k < |sys.restamps| ==> RestampHolds(sys, sys.restamps[k]) && sys.restamps[k].asOf <= |sys.moves|;
    hide RestampHolds;
  }

  lemma CommitUpToDate(sys: System, tx: nat, next: System)
    requires UpToDate(sys) && tx in sys.publications && sys.publications[tx].read < |sys.history|
    requires |sys.history| == |sys.moves| + 1
    requires forall k :: 0 <= k < |sys.restamps| ==> RestampHolds(sys, sys.restamps[k])
    requires next == AfterCommit(sys, tx).(clock := sys.clock + 1)
    ensures UpToDate(next)
  {
    hide OwnerAt;
    assert forall k :: 0 <= k < |sys.restamps| ==> RestampHolds(sys, sys.restamps[k]) && sys.restamps[k].asOf <= |sys.moves|;
    hide RestampHolds;
  }

  lemma {:induction false} UpToDateReachable(states: seq<System>, steps: seq<Step>, i: nat)
    requires Run(states, steps) && i < |states|
    requires forall k :: 0 <= k < i && steps[k].Transfer? ==> Quiet(states[k])
    ensures UpToDate(states[i])
  {
    if i > 0 {
      UpToDateReachable(states, steps, i - 1);
      Reachable(states, steps, i - 1);
      hide Inv, UpToDate, Next, Initial;
      UpToDateKept(states[i - 1], steps[i - 1], states[i]);
    }
  }

  /** If no transfer was made while a publication was between its owner read and its commit or a
      restamping was unfinished, then every stamp is the owner once all restampings are finished. */
  lemma QuietTransfersStampRight(states: seq<System>, steps: seq<Step>, i: nat, id: RowId)
    requires Run(states, steps) && i < |states| && id in states[i].costs
    requires forall k :: 0 <= k < i && steps[k].Transfer? ==> Quiet(states[k])
    requires Settled(states[i])
    ensures HistoryHolds(states[i]) && !Wrong(states[i], id)
  {
    Reachable(states, steps, i);
    UpToDateReachable(states, steps, i);
    assert HistoryHolds(states[i]);
    hide Inv, Run, HistoryHolds, Wrong;
    if Wrong(states[i], id) {
      var t, n := WrongCause(states, steps, i, id);
      assert false;
    }
  }

  // --- A stamp that stays wrong -------------------------------------------------------------------------

  const LINE := Slice(0, 20, "111111111111", "service", "USD")
  const MOVED := Move("111111111111", 2, 10)

  function OldOwner(): Assignments {
    [Assignment("111111111111", 1, 0, None)]
  }

  function NewOwner(): Assignments {
    [Assignment("111111111111", 1, 0, Some(10)), Assignment("111111111111", 2, 10, None)]
  }

  function Reading(): Publication {
    Publication(0, 0, 31, map[LINE := Amounts(5, 5)], 0)
  }

  /** After the transfer, with its restamping and the publication beside it. */
  function Scene(clock: nat, phase: Phase, costs: map<RowId, Row>, publications: map<nat, Publication>): System {
    System(clock, [OldOwner(), NewOwner()], [MOVED], costs, [Restamp("111111111111", 10, 1, phase)], publications)
  }

  lemma SceneOwners()
    ensures Disjoint(OldOwner()) && Disjoint(NewOwner())
    ensures Owner(OldOwner(), "111111111111", 20) == Some(1) && Owner(NewOwner(), "111111111111", 20) == Some(2)
  {
    OwnerIs(OldOwner(), 0, 20);
    OwnerIs(NewOwner(), 1, 20);
  }

  lemma OwnersReadAndTransfer()
    ensures Initial(System(0, [OldOwner()], [], map[], [], map[]))
    ensures Next(System(0, [OldOwner()], [], map[], [], map[]), ReadOwners(0, 0, 0, 31, map[LINE := Amounts(5, 5)]),
                 System(1, [OldOwner()], [], map[], [], map[0 := Reading()]))
    ensures Next(System(1, [OldOwner()], [], map[], [], map[0 := Reading()]), Transfer(MOVED, Some(0)),
                 Scene(2, Waiting, map[], map[0 := Reading()]))
  {
    SceneOwners();
    hide Disjoint, Owner;
    assert WithTransfer(OldOwner(), Some(0), "111111111111", 2, 10) == NewOwner();
  }

  lemma RestampFindsNothing()
    ensures Next(Scene(2, Waiting, map[], map[0 := Reading()]), ListOwners(0), Scene(3, Listed(1), map[], map[0 := Reading()]))
    ensures Next(Scene(3, Listed(1), map[], map[0 := Reading()]), ReadRows(0), Scene(4, Updating(1, 3, {}), map[], map[0 := Reading()]))
    ensures Next(Scene(4, Updating(1, 3, {}), map[], map[0 := Reading()]), Finish(0), Scene(5, Finished(3), map[], map[0 := Reading()]))
  {
    hide Owner;
    var sys := Scene(3, Listed(1), map[], map[0 := Reading()]);
    assert AfterReadRows(sys, 0).costs == map[] && AfterReadRows(sys, 0).restamps[0].phase == Updating(1, 3, {});
    assert AfterReadRows(sys, 0).restamps == Scene(3, Updating(1, 3, {}), map[], map[0 := Reading()]).restamps;
  }

  lemma LateCommit()
    ensures Next(Scene(5, Finished(3), map[], map[0 := Reading()]), Commit(0),
                 Scene(6, Finished(3), map[RowId(LINE, 5) := Row(Amounts(5, 5), Some(1), 0, 5)], map[]))
  {
    SceneOwners();
    hide Owner;
    var sys := Scene(5, Finished(3), map[], map[0 := Reading()]);
    assert OwnerAt(sys, 0, RowId(LINE, 5)) == Some(1);
    assert AfterCommit(sys, 0).costs == map[RowId(LINE, 5) := Row(Amounts(5, 5), Some(1), 0, 5)];
    assert AfterCommit(sys, 0).publications == map[];
  }

  lemma LateRun() returns (states: seq<System>, steps: seq<Step>)
    ensures Run(states, steps) && |steps| == 6 && steps[0].ReadOwners? && steps[1].Transfer? && steps[4].Finish? && steps[5].Commit?
    ensures |states| == 7 && states[6] == Scene(6, Finished(3), map[RowId(LINE, 5) := Row(Amounts(5, 5), Some(1), 0, 5)], map[])
  {
    hide Next, Initial, Scene, Reading, OldOwner;
    OwnersReadAndTransfer();
    RestampFindsNothing();
    LateCommit();
    var reading := map[0 := Reading()];
    steps := [ReadOwners(0, 0, 0, 31, map[LINE := Amounts(5, 5)]), Transfer(MOVED, Some(0)), ListOwners(0), ReadRows(0), Finish(0), Commit(0)];
    states := [System(0, [OldOwner()], [], map[], [], map[]), System(1, [OldOwner()], [], map[], [], reading),
               Scene(2, Waiting, map[], reading), Scene(3, Listed(1), map[], reading), Scene(4, Updating(1, 3, {}), map[], reading),
               Scene(5, Finished(3), map[], reading), Scene(6, Finished(3), map[RowId(LINE, 5) := Row(Amounts(5, 5), Some(1), 0, 5)], map[])];
  }

  /** A publication that has read the owners, a transfer with its restamping, and then the commit:
      everything is finished, and the row still names the old owner. */
  lemma PublicationAcrossTransfer() returns (states: seq<System>, steps: seq<Step>)
    ensures Run(states, steps) && |steps| == 6 && steps[0].ReadOwners? && steps[1].Transfer? && steps[4].Finish? && steps[5].Commit?
    ensures Quiet(states[6]) && HistoryHolds(states[6]) && RowId(LINE, 5) in states[6].costs && Wrong(states[6], RowId(LINE, 5))
  {
    states, steps := LateRun();
    hide Run, HistoryHolds, Wrong;
    LateRowIsWrong(states, steps);
  }

  lemma LateRowIsWrong(states: seq<System>, steps: seq<Step>)
    requires Run(states, steps) && |states| == 7
    requires states[6] == Scene(6, Finished(3), map[RowId(LINE, 5) := Row(Amounts(5, 5), Some(1), 0, 5)], map[])
    ensures HistoryHolds(states[6]) && Wrong(states[6], RowId(LINE, 5))
  {
    Reachable(states, steps, 6);
    SceneOwners();
    assert HistoryHolds(states[6]);
    hide Inv, Run, Owner, Disjoint, HistoryHolds;
  }

  // --- A newer stamp overwritten ---------------------------------------------------------------------------

  const NEXT := Move("111111111111", 3, 12)
  const STORED := RowId(LINE, 1)

  function NewestOwner(): Assignments {
    [Assignment("111111111111", 1, 0, Some(10)), Assignment("111111111111", 2, 10, Some(12)), Assignment("111111111111", 3, 12, None)]
  }

  function Stored(customer: CustomerId, read: nat, written: nat): map<RowId, Row> {
    map[STORED := Row(Amounts(5, 5), Some(customer), read, written)]
  }

  function OneTransfer(clock: nat, first: Phase, costs: map<RowId, Row>): System {
    System(clock, [OldOwner(), NewOwner()], [MOVED], costs, [Restamp("111111111111", 10, 1, first)], map[])
  }

  function TwoTransfers(clock: nat, first: Phase, second: Phase, costs: map<RowId, Row>): System {
    System(clock, [OldOwner(), NewOwner(), NewestOwner()], [MOVED, NEXT], costs,
           [Restamp("111111111111", 10, 1, first), Restamp("111111111111", 12, 2, second)], map[])
  }

  lemma NewestOwners()
    ensures Disjoint(NewestOwner()) && Owner(NewestOwner(), "111111111111", 20) == Some(3)
  {
    OwnerIs(NewestOwner(), 2, 20);
  }

  lemma FirstCommit()
    ensures Next(System(1, [OldOwner()], [], map[], [], map[0 := Reading()]), Commit(0), System(2, [OldOwner()], [], Stored(1, 0, 1), [], map[]))
  {
    SceneOwners();
    hide Owner, Disjoint;
    var sys := System(1, [OldOwner()], [], map[], [], map[0 := Reading()]);
    assert OwnerAt(sys, 0, STORED) == Some(1);
    assert AfterCommit(sys, 0).costs == Stored(1, 0, 1) && AfterCommit(sys, 0).publications == map[];
  }

  lemma FirstTransferRead()
    ensures Next(System(2, [OldOwner()], [], Stored(1, 0, 1), [], map[]), Transfer(MOVED, Some(0)), OneTransfer(3, Waiting, Stored(1, 0, 1)))
  {
    hide Owner, Disjoint;
    assert WithTransfer(OldOwner(), Some(0), "111111111111", 2, 10) == NewOwner();
  }

  lemma FirstRestampStarts()
    ensures Next(OneTransfer(3, Waiting, Stored(1, 0, 1)), ListOwners(0), OneTransfer(4, Listed(1), Stored(1, 0, 1)))
    ensures Next(OneTransfer(4, Listed(1), Stored(1, 0, 1)), ReadRows(0), OneTransfer(5, Updating(1, 4, {STORED}), Stored(1, 0, 1)))
  {
    SceneOwners();
    hide Owner, Disjoint;
    var sys := OneTransfer(4, Listed(1), Stored(1, 0, 1));
    assert OwnerAt(sys, 1, STORED) == Some(2);
    assert AfterReadRows(sys, 0).restamps[0].phase == Updating(1, 4, {STORED});
    assert AfterReadRows(sys, 0).restamps == OneTransfer(5, Updating(1, 4, {STORED}), Stored(1, 0, 1)).restamps;
    assert AfterReadRows(sys, 0).costs == Stored(1, 0, 1);
  }

  lemma SecondTransfer()
    ensures Next(OneTransfer(5, Updating(1, 4, {STORED}), Stored(1, 0, 1)), Transfer(NEXT, Some(1)),
                 TwoTransfers(6, Updating(1, 4, {STORED}), Waiting, Stored(1, 0, 1)))
    ensures Next(TwoTransfers(6, Updating(1, 4, {STORED}), Waiting, Stored(1, 0, 1)), ListOwners(1),
                 TwoTransfers(7, Updating(1, 4, {STORED}), Listed(2), Stored(1, 0, 1)))
  {
    assert WithTransfer(NewOwner(), Some(1), "111111111111", 3, 12) == NewestOwner();
  }

  lemma SecondRestampReads()
    ensures Next(TwoTransfers(7, Updating(1, 4, {STORED}), Listed(2), Stored(1, 0, 1)), ReadRows(1),
                 TwoTransfers(8, Updating(1, 4, {STORED}), Updating(2, 7, {STORED}), Stored(1, 0, 1)))
  {
    NewestOwners();
    hide Owner, Disjoint;
    var sys, next := TwoTransfers(7, Updating(1, 4, {STORED}), Listed(2), Stored(1, 0, 1)),
                     TwoTransfers(8, Updating(1, 4, {STORED}), Updating(2, 7, {STORED}), Stored(1, 0, 1));
    assert OwnerAt(sys, 2, STORED) == Some(3);
    assert AfterReadRows(sys, 1).restamps[1].phase == Updating(2, 7, {STORED});
    assert AfterReadRows(sys, 1).restamps == next.restamps;
    assert AfterReadRows(sys, 1).costs == Stored(1, 0, 1);
  }

  lemma SecondRestampWrites()
    ensures Next(TwoTransfers(8, Updating(1, 4, {STORED}), Updating(2, 7, {STORED}), Stored(1, 0, 1)), UpdateRow(1, STORED),
                 TwoTransfers(9, Updating(1, 4, {STORED}), Updating(2, 7, {}), Stored(3, 2, 8)))
    ensures Next(TwoTransfers(9, Updating(1, 4, {STORED}), Updating(2, 7, {}), Stored(3, 2, 8)), Finish(1),
                 TwoTransfers(10, Updating(1, 4, {STORED}), Finished(7), Stored(3, 2, 8)))
  {
    NewestOwners();
    hide Owner, Disjoint;
    var sys := TwoTransfers(8, Updating(1, 4, {STORED}), Updating(2, 7, {STORED}), Stored(1, 0, 1));
    assert OwnerAt(sys, 2, STORED) == Some(3) && {STORED} - {STORED} == {};
    assert AfterUpdateRow(sys, 1, STORED).restamps == TwoTransfers(9, Updating(1, 4, {STORED}), Updating(2, 7, {}), Stored(3, 2, 8)).restamps;
  }

  lemma FirstRestampEnds()
    ensures Next(TwoTransfers(10, Updating(1, 4, {STORED}), Finished(7), Stored(3, 2, 8)), UpdateRow(0, STORED),
                 TwoTransfers(11, Updating(1, 4, {}), Finished(7), Stored(2, 1, 10)))
    ensures Next(TwoTransfers(11, Updating(1, 4, {}), Finished(7), Stored(2, 1, 10)), Finish(0),
                 TwoTransfers(12, Finished(4), Finished(7), Stored(2, 1, 10)))
  {
    SceneOwners();
    hide Owner, Disjoint;
    var sys := TwoTransfers(10, Updating(1, 4, {STORED}), Finished(7), Stored(3, 2, 8));
    assert OwnerAt(sys, 1, STORED) == Some(2) && {STORED} - {STORED} == {};
    assert AfterUpdateRow(sys, 0, STORED).restamps == TwoTransfers(11, Updating(1, 4, {}), Finished(7), Stored(2, 1, 10)).restamps;
  }

  lemma OvertakingRun() returns (states: seq<System>, steps: seq<Step>)
    ensures Run(states, steps) && |states| == 13 && states[12] == TwoTransfers(12, Finished(4), Finished(7), Stored(2, 1, 10))
    ensures forall k :: 2 <= k < 12 ==> !steps[k].ReadOwners? && !steps[k].Commit?
  {
    hide Next, Initial, OneTransfer, TwoTransfers, Stored, Reading, OldOwner;
    OwnersReadAndTransfer();
    FirstCommit();
    FirstTransferRead();
    FirstRestampStarts();
    SecondTransfer();
    SecondRestampReads();
    SecondRestampWrites();
    FirstRestampEnds();
    steps := [ReadOwners(0, 0, 0, 31, map[LINE := Amounts(5, 5)]), Commit(0), Transfer(MOVED, Some(0)), ListOwners(0), ReadRows(0),
              Transfer(NEXT, Some(1)), ListOwners(1), ReadRows(1), UpdateRow(1, STORED), Finish(1), UpdateRow(0, STORED), Finish(0)];
    var started := Updating(1, 4, {STORED});
    states := [System(0, [OldOwner()], [], map[], [], map[]), System(1, [OldOwner()], [], map[], [], map[0 := Reading()]),
               System(2, [OldOwner()], [], Stored(1, 0, 1), [], map[]), OneTransfer(3, Waiting, Stored(1, 0, 1)),
               OneTransfer(4, Listed(1), Stored(1, 0, 1)), OneTransfer(5, started, Stored(1, 0, 1)),
               TwoTransfers(6, started, Waiting, Stored(1, 0, 1)), TwoTransfers(7, started, Listed(2), Stored(1, 0, 1)),
               TwoTransfers(8, started, Updating(2, 7, {STORED}), Stored(1, 0, 1)), TwoTransfers(9, started, Updating(2, 7, {}), Stored(3, 2, 8)),
               TwoTransfers(10, started, Finished(7), Stored(3, 2, 8)), TwoTransfers(11, Updating(1, 4, {}), Finished(7), Stored(2, 1, 10)),
               TwoTransfers(12, Finished(4), Finished(7), Stored(2, 1, 10))];
  }

  /** Two transfers whose restampings cross: the older one writes last, everything is finished, and
      the row names the owner between the two. No publication is under way meanwhile. */
  lemma OlderRestampOvertakes() returns (states: seq<System>, steps: seq<Step>)
    ensures Run(states, steps) && |states| == 13 && forall k :: 2 <= k < 12 ==> !steps[k].ReadOwners? && !steps[k].Commit?
    ensures Quiet(states[12]) && HistoryHolds(states[12]) && STORED in states[12].costs && Wrong(states[12], STORED)
  {
    states, steps := OvertakingRun();
    Reachable(states, steps, 12);
    assert HistoryHolds(states[12]);
    NewestOwners();
    hide Inv, Run, Owner, Disjoint, HistoryHolds;
  }
}
