/** The durable cache of AWS requests: one row per request, connection state and user scope,
    refreshed by workers while operators rotate connections and transfer accounts.

    A digest is modelled as the value it digests. */
module QueryCache {
  import opened Options
  import opened Aws
  import Text

  type SourceId = nat
  type AccountId = string
  type Time = int

  const COOLDOWN: int := 6 * 3600

  // --- Requests ----------------------------------------------------------------------------

  /** A request body and the account restrictions that were added to it. */
  datatype Parameters = Parameters(body: string, restrictions: seq<seq<AccountId>>)

  /** `scoped_parameters`: an empty account list asks for an account that does not exist. */
  function Scoped(p: Parameters, accounts: Option<set<AccountId>>): Parameters {
    if accounts.None? then p
    else p.(restrictions := p.restrictions + [if accounts.value == {} then ["000000000000"] else Text.Sorted(accounts.value)])
  }

  /** The accounts a scoped request can return: never more than the caller's, never all for none. */
  predicate Admits(p: Parameters, account: AccountId) {
    forall i :: 0 <= i < |p.restrictions| ==> account in p.restrictions[i]
  }

  lemma ScopedAdmits(p: Parameters, accounts: set<AccountId>, account: AccountId)
    ensures Admits(Scoped(p, Some(accounts)), account) <==>
            Admits(p, account) && (account in accounts || (accounts == {} && account == "000000000000"))
  {
    var q := Scoped(p, Some(accounts));
    assert q.restrictions[|p.restrictions|] == if accounts == {} then ["000000000000"] else Text.Sorted(accounts);
    assert forall i :: 0 <= i < |p.restrictions| ==> q.restrictions[i] == p.restrictions[i];
  }

  /** `connection_key`: the loaded connection and the stored ownership version. */
  datatype Identity = Identity(roleArn: string, externalId: string, version: nat, ownership: nat)

  datatype Fingerprint = Fingerprint(identity: Identity, operation: string, parameters: Parameters, customer: Option<nat>, scope: string)

  datatype Connection = Connection(enabled: bool, roleArn: string, externalId: string, version: nat, ownership: nat)

  function Key(c: Connection, ownership: nat): Identity {
    Identity(c.roleArn, c.externalId, c.version, ownership)
  }

  // --- Rows, workers and the system -------------------------------------------------------------

  /** Data as fetched: for which query, with which role, and when AWS answered. */
  datatype Data = Data(query: Fingerprint, roleArn: string, externalId: string, fetched: nat, rows: seq<string>)

  datatype Row = Row(data: Option<Data>, requested: bool, failed: bool, lastAttempt: Option<Time>)

  /** A worker runs one query: it holds the row's fingerprint and the source as it was loaded. */
  datatype Refresh =
    | Loaded(source: SourceId, query: Fingerprint, conn: Connection)
    | Started(source: SourceId, query: Fingerprint, conn: Connection, startedAt: nat)
    | Fetched(source: SourceId, query: Fingerprint, data: Data)

  /** `past[s]` holds every state the connection s ever had: any of them may still be in the memory
      of a request that loaded the row. `changed[s]` is the last step at which its identity changed. */
  datatype System = System(
    clock: nat,
    sources: map<SourceId, Connection>,
    rows: map<(SourceId, Fingerprint), Row>,
    refreshes: map<nat, Refresh>,
    past: map<SourceId, set<Connection>>,
    changed: map<SourceId, nat>)

  datatype Step =
    | Get(source: SourceId, loaded: Connection, operation: string, parameters: Parameters, customer: Option<nat>, scope: string, now: Time)
    | Load(worker: nat, source: SourceId, query: Fingerprint)
    | Start(worker: nat, authorized: bool, now: Time)
    | Fetch(worker: nat, rows: seq<string>)
    | Commit(worker: nat, authorized: bool)
    | Abort(worker: nat)
    | Rotate(source: SourceId, roleArn: string, externalId: string)
    | Transfer(source: SourceId)
    | SetEnabled(source: SourceId, enabled: bool)
    | SaveForm(source: SourceId, loaded: Connection, previous: Connection, roleArn: string, edited: bool)
    | Expire(source: SourceId, query: Fingerprint)

  /** A step forward: versions do not fall, and equal versions mean equal roles. */
  predicate Earlier(a: Connection, b: Connection) {
    a.version <= b.version && a.ownership <= b.ownership
    && (a.version == b.version ==> a.roleArn == b.roleArn && a.externalId == b.externalId)
  }

  /** What the connection form writes: all columns as its request loaded them, with the edited
      role; the loaded version is raised if role or capabilities differ from a second, later read. */
  function FormRow(loaded: Connection, previous: Connection, roleArn: string, edited: bool): Connection {
    loaded.(roleArn := roleArn, version := loaded.version + if roleArn != previous.roleArn || edited then 1 else 0)
  }

  /** The fingerprint `get_query` computes. */
  function QueryFor(sys: System, s: SourceId, loaded: Connection, operation: string, parameters: Parameters, customer: Option<nat>, scope: string):
    Fingerprint
    requires s in sys.sources
  {
    Fingerprint(Key(loaded, sys.sources[s].ownership), operation, parameters, customer, scope)
  }

  function RowOf(sys: System, s: SourceId, q: Fingerprint): Row {
    if (s, q) in sys.rows then sys.rows[(s, q)] else Row(None, true, false, None)
  }

  function AfterGet(sys: System, s: SourceId, q: Fingerprint, now: Time): System {
    var row := RowOf(sys, s, q);
    var due := row.lastAttempt.None? || row.lastAttempt.value < now - COOLDOWN;
    sys.(rows := sys.rows[(s, q) := row.(requested := row.requested || due)])
  }

  function Without(sys: System, worker: nat): map<nat, Refresh> {
    map w | w in sys.refreshes && w != worker :: sys.refreshes[w]
  }

  function UpdateRow(sys: System, s: SourceId, q: Fingerprint, row: Row): map<(SourceId, Fingerprint), Row> {
    if (s, q) in sys.rows then sys.rows[(s, q) := row] else sys.rows
  }

  function AfterStart(sys: System, worker: nat, authorized: bool, now: Time): System
    requires worker in sys.refreshes && sys.refreshes[worker].Loaded? && sys.refreshes[worker].source in sys.sources
  {
    var r := sys.refreshes[worker];
    var row := RowOf(sys, r.source, r.query);
    if !authorized then
      sys.(rows := UpdateRow(sys, r.source, r.query, row.(data := None, requested := false, failed := true)), refreshes := Without(sys, worker))
    else if !r.conn.enabled || r.conn.roleArn == "" || Key(r.conn, sys.sources[r.source].ownership) != r.query.identity then
      sys.(rows := UpdateRow(sys, r.source, r.query, row.(requested := false, failed := true)), refreshes := Without(sys, worker))
    else
      sys.(rows := UpdateRow(sys, r.source, r.query, row.(lastAttempt := Some(now))),
           refreshes := sys.refreshes[worker := Started(r.source, r.query, r.conn, sys.clock)])
  }

  /** Under the source row lock: the result is stored only if the connection is still the one
      the query names; otherwise only the error is recorded. */
  function AfterCommit(sys: System, worker: nat, authorized: bool): System
    requires worker in sys.refreshes && sys.refreshes[worker].Fetched? && sys.refreshes[worker].source in sys.sources
  {
    var r := sys.refreshes[worker];
    var row, conn := RowOf(sys, r.source, r.query), sys.sources[r.source];
    var next := if conn.enabled && Key(conn, conn.ownership) == r.query.identity && authorized
                then row.(data := Some(r.data), requested := false, failed := false)
                else row.(requested := false, failed := true);
    sys.(rows := UpdateRow(sys, r.source, r.query, next), refreshes := Without(sys, worker))
  }

  /** A failed fetch, or a worker that stops: data stays. */
  function AfterAbort(sys: System, worker: nat): System
    requires worker in sys.refreshes
  {
    var r := sys.refreshes[worker];
    sys.(rows := UpdateRow(sys, r.source, r.query, RowOf(sys, r.source, r.query).(requested := false, failed := true)),
         refreshes := Without(sys, worker))
  }

  function Changed(sys: System, s: SourceId, conn: Connection): System
    requires s in sys.sources && s in sys.past && s in sys.changed
  {
    sys.(sources := sys.sources[s := conn], past := sys.past[s := sys.past[s] + {conn}],
         changed := if Key(conn, conn.ownership) == Key(sys.sources[s], sys.sources[s].ownership) then sys.changed
                    else sys.changed[s := sys.clock])
  }

  /** The source is there. */
  predicate Known(sys: System, s: SourceId) {
    s in sys.sources && s in sys.past && s in sys.changed
  }

  ghost predicate Effect(sys: System, step: Step, next: System) {
    match step
    case Get(s, loaded, operation, parameters, customer, scope, now) =>
      && Known(sys, s) && loaded in sys.past[s]
      && next == AfterGet(sys, s, QueryFor(sys, s, loaded, operation, parameters, customer, scope), now)
    case Load(w, s, q) =>
      && w !in sys.refreshes && (s, q) in sys.rows && s in sys.sources
      && next == sys.(refreshes := sys.refreshes[w := Loaded(s, q, sys.sources[s])])
    case Start(w, authorized, now) =>
      && w in sys.refreshes && sys.refreshes[w].Loaded? && sys.refreshes[w].source in sys.sources
      && next == AfterStart(sys, w, authorized, now)
    case Fetch(w, rows) =>
      && w in sys.refreshes && sys.refreshes[w].Started?
      && var r := sys.refreshes[w];
      var data := Data(r.query, r.conn.roleArn, r.conn.externalId, sys.clock, rows);
      next == sys.(refreshes := sys.refreshes[w := Fetched(r.source, r.query, data)])
    case Commit(w, authorized) =>
      && w in sys.refreshes && sys.refreshes[w].Fetched? && sys.refreshes[w].source in sys.sources
      && next == AfterCommit(sys, w, authorized)
    case Abort(w) => w in sys.refreshes && next == AfterAbort(sys, w)
    case Rotate(s, roleArn, externalId) =>
      && Known(sys, s)
      && next == Changed(sys, s, sys.sources[s].(version := sys.sources[s].version + 1, roleArn := roleArn, externalId := externalId))
    case Transfer(s) =>
      Known(sys, s) && next == Changed(sys, s, sys.sources[s].(ownership := sys.sources[s].ownership + 1))
    case SetEnabled(s, enabled) =>
      Known(sys, s) && next == Changed(sys, s, sys.sources[s].(enabled := enabled))
    case SaveForm(s, loaded, previous, roleArn, edited) =>
      && Known(sys, s) && loaded in sys.past[s] && previous in sys.past[s]
      && next == Changed(sys, s, FormRow(loaded, previous, roleArn, edited))
    case Expire(s, q) => next == sys.(rows := map k | k in sys.rows && k != (s, q) :: sys.rows[k])
  }

  /** Every step takes one tick. */
  ghost predicate Next(sys: System, step: Step, next: System) {
    next.clock == sys.clock + 1 && Effect(sys, step, next.(clock := sys.clock))
  }

  ghost predicate Initial(sys: System) {
    && sys.rows == map[] && sys.refreshes == map[] && sys.changed.Keys == sys.sources.Keys
    && sys.past == (map s | s in sys.sources :: {sys.sources[s]})
    && forall s :: s in sys.sources ==> sys.changed[s] < sys.clock
  }

  ghost predicate Run(states: seq<System>, steps: seq<Step>) {
    && |states| == |steps| + 1
    && Initial(states[0])
    && forall i :: 0 <= i < |steps| ==> Next(states[i], steps[i], states[i + 1])
  }

  // --- Whose data it is: in every run ---------------------------------------------------------------

  ghost predicate DataOwn(q: Fingerprint, d: Data) {
    d.query == q && d.roleArn == q.identity.roleArn && d.externalId == q.identity.externalId
  }

  ghost predicate RefreshOwn(r: Refresh) {
    && (r.Started? ==> r.conn.roleArn == r.query.identity.roleArn && r.conn.externalId == r.query.identity.externalId)
    && (r.Fetched? ==> DataOwn(r.query, r.data))
  }

  /** Data is stored under the query it was fetched for, fetched with the role the query names. */
  ghost predicate Own(sys: System) {
    && (forall k :: k in sys.rows && sys.rows[k].data.Some? ==> DataOwn(k.1, sys.rows[k].data.value))
    && (forall w :: w in sys.refreshes ==> RefreshOwn(sys.refreshes[w]))
  }

  lemma OwnKept(sys: System, step: Step, next: System)
    requires Own(sys) && Next(sys, step, next)
    ensures Own(next)
  {
    hide DataOwn;
    match step
    case Start(w, authorized, now) => StartOwn(sys, w, authorized, now);
    case Fetch(w, rows) =>
      FetchOwn(sys, w, rows);
      hide RefreshOwn;
    case Commit(w, authorized) => CommitOwn(sys, w, authorized);
    case _ =>
      hide RefreshOwn, QueryFor, FormRow, Key, AfterStart, AfterCommit;
  }

  lemma StartOwn(sys: System, w: nat, authorized: bool, now: Time)
    requires Own(sys) && w in sys.refreshes && sys.refreshes[w].Loaded? && sys.refreshes[w].source in sys.sources
    ensures Own(AfterStart(sys, w, authorized, now).(clock := sys.clock + 1))
  {
    hide DataOwn;
  }

  lemma CommitOwn(sys: System, w: nat, authorized: bool)
    requires Own(sys) && w in sys.refreshes && sys.refreshes[w].Fetched? && sys.refreshes[w].source in sys.sources
    ensures Own(AfterCommit(sys, w, authorized).(clock := sys.clock + 1))
  {
    assert RefreshOwn(sys.refreshes[w]);
    hide DataOwn;
  }

  lemma FetchOwn(sys: System, w: nat, rows: seq<string>)
    requires Own(sys) && w in sys.refreshes && sys.refreshes[w].Started?
    ensures
      var r := sys.refreshes[w];
      RefreshOwn(Fetched(r.source, r.query, Data(r.query, r.conn.roleArn, r.conn.externalId, sys.clock, rows)))
  {
    assert RefreshOwn(sys.refreshes[w]);
  }

  lemma {:induction false} OwnReachable(states: seq<System>, steps: seq<Step>, i: nat)
    requires Run(states, steps) && i < |states|
    ensures Own(states[i])
  {
    if i > 0 {
      OwnReachable(states, steps, i - 1);
      hide Own, Next;
      OwnKept(states[i - 1], steps[i - 1], states[i]);
    }
  }

  /** Whatever data a call returns was fetched for that very call: the same operation, scoped
      parameters, customer, user scope, version and ownership, with the role and external id
      of the connection as the caller loaded it. This holds in every run, whatever forms save. */
  lemma ReturnedDataIsOwn(states: seq<System>, steps: seq<Step>, i: nat, s: SourceId, loaded: Connection,
                          operation: string, parameters: Parameters, customer: Option<nat>, scope: string)
    requires Run(states, steps) && i < |states| && s in states[i].sources
    ensures
      var row := RowOf(states[i], s, QueryFor(states[i], s, loaded, operation, parameters, customer, scope));
      row.data.Some? ==>
        var d := row.data.value;
        && d.query.operation == operation && d.query.parameters == parameters
        && d.query.customer == customer && d.query.scope == scope
        && d.query.identity == Identity(loaded.roleArn, loaded.externalId, loaded.version, states[i].sources[s].ownership)
        && d.roleArn == loaded.roleArn && d.externalId == loaded.externalId
  {
    OwnReachable(states, steps, i);
    hide Run;
  }

  // --- How fresh it is: as long as connections only move forward -----------------------------------------

  /** The step saves no connection older than the one that is stored. */
  predicate Forward(sys: System, step: Step) {
    step.SaveForm? && step.source in sys.sources ==>
      Earlier(sys.sources[step.source], FormRow(step.loaded, step.previous, step.roleArn, step.edited))
  }

  ghost predicate ForwardUntil(states: seq<System>, steps: seq<Step>, i: nat)
    requires |states| == |steps| + 1 && i < |states|
  {
    forall k :: 0 <= k < i ==> Forward(states[k], steps[k])
  }

  ghost predicate AllEarlier(sys: System, next: System) {
    forall s :: s in sys.sources ==> s in next.sources && Earlier(sys.sources[s], next.sources[s])
  }

  lemma OtherStepsKeepSources(sys: System, step: Step, next: System)
    requires Next(sys, step, next)
    ensures step.Rotate? || step.Transfer? || step.SetEnabled? || step.SaveForm? || next.sources == sys.sources
  {
    hide QueryFor, RowOf, UpdateRow, Without;
  }

  /** Saving the form is the only way back. */
  lemma ForwardStep(sys: System, step: Step, next: System)
    requires Next(sys, step, next)
    ensures Forward(sys, step) <==> AllEarlier(sys, next)
  {
    OtherStepsKeepSources(sys, step, next);
    if step.Rotate? || step.Transfer? || step.SetEnabled? || step.SaveForm? {
      hide AfterGet, AfterStart, AfterCommit, AfterAbort, QueryFor, FormRow;
      assert step.source in sys.sources && step.source in next.sources;
      assert step.SaveForm? ==> next.sources[step.source] == FormRow(step.loaded, step.previous, step.roleArn, step.edited);
      assert forall s :: s in sys.sources && s != step.source ==> s in next.sources && next.sources[s] == sys.sources[s];
    }
  }

  /** Connections move forward throughout a run exactly if every saved form does. */
  lemma ForwardExactly(states: seq<System>, steps: seq<Step>, i: nat)
    requires Run(states, steps) && i < |states|
    ensures ForwardUntil(states, steps, i) <==> forall a, b :: 0 <= a <= b <= i ==> AllEarlier(states[a], states[b])
  {
    hide Next, Forward, AllEarlier;
    if ForwardUntil(states, steps, i) {
      forall a: nat, b: nat | a <= b <= i
        ensures AllEarlier(states[a], states[b])
      {
        ForwardBetween(states, steps, i, a, b);
      }
    }
    if forall a, b :: 0 <= a <= b <= i ==> AllEarlier(states[a], states[b]) {
      forall k | 0 <= k < i
        ensures Forward(states[k], steps[k])
      {
        assert Next(states[k], steps[k], states[k + 1]);
        ForwardStep(states[k], steps[k], states[k + 1]);
      }
    }
  }

  lemma EarlierChain(a: System, b: System, c: System)
    requires AllEarlier(a, b) && AllEarlier(b, c)
    ensures AllEarlier(a, c)
  {
  }

  lemma {:induction false} ForwardBetween(states: seq<System>, steps: seq<Step>, i: nat, a: nat, b: nat)
    requires Run(states, steps) && i < |states| && ForwardUntil(states, steps, i) && a <= b <= i
    ensures AllEarlier(states[a], states[b])
    decreases b
  {
    hide Next, Forward, Initial;
    if a < b {
      ForwardBetween(states, steps, i, a, b - 1);
      assert Next(states[b - 1], steps[b - 1], states[b]) && Forward(states[b - 1], steps[b - 1]);
      ForwardStep(states[b - 1], steps[b - 1], states[b]);
      hide AllEarlier;
      EarlierChain(states[a], states[b - 1], states[b]);
    }
  }

  /** A query's identity never runs ahead of its connection, and names its role. */
  predicate NotAhead(i: Identity, c: Connection) {
    i.version <= c.version && i.ownership <= c.ownership
    && (i.version == c.version ==> i.roleArn == c.roleArn && i.externalId == c.externalId)
  }

  predicate Current(sys: System, s: SourceId, q: Fingerprint)
    requires s in sys.sources
  {
    q.identity == Key(sys.sources[s], sys.sources[s].ownership)
  }

  /** Data for the current connection is newer than the last change. */
  ghost predicate RowHolds(sys: System, s: SourceId, q: Fingerprint, row: Row) {
    && s in sys.sources && s in sys.changed && NotAhead(q.identity, sys.sources[s])
    && (row.data.Some? && Current(sys, s, q) ==> sys.changed[s] < row.data.value.fetched)
  }

  ghost predicate RowsHold(sys: System) {
    forall s: SourceId, q: Fingerprint :: (s, q) in sys.rows ==> RowHolds(sys, s, q, sys.rows[(s, q)])
  }

  ghost predicate RefreshHolds(sys: System, r: Refresh) {
    && r.source in sys.sources && r.source in sys.changed && NotAhead(r.query.identity, sys.sources[r.source])
    && (r.Started? ==> r.startedAt < sys.clock && (Current(sys, r.source, r.query) ==> sys.changed[r.source] < r.startedAt))
    && (r.Fetched? && Current(sys, r.source, r.query) ==> sys.changed[r.source] < r.data.fetched)
  }

  ghost predicate RefreshesHold(sys: System) {
    forall w :: w in sys.refreshes ==> RefreshHolds(sys, sys.refreshes[w])
  }

  ghost predicate SourcesHold(sys: System) {
    && sys.changed.Keys == sys.sources.Keys == sys.past.Keys
    && forall s :: s in sys.sources ==>
         && sys.changed[s] < sys.clock && forall c :: c in sys.past[s] ==> Earlier(c, sys.sources[s])
  }

  ghost predicate Inv(sys: System) {
    SourcesHold(sys) && RowsHold(sys) && RefreshesHold(sys)
  }

  /** A step forward of one connection: nothing that exists names the new state. */
  lemma ChangeKept(sys: System, s: SourceId, conn: Connection)
    requires Inv(sys) && s in sys.sources && Earlier(sys.sources[s], conn)
    ensures Inv(Changed(sys, s, conn).(clock := sys.clock + 1))
  {
    var next := Changed(sys, s, conn).(clock := sys.clock + 1);
    forall t: SourceId, q: Fingerprint | (t, q) in next.rows
      ensures RowHolds(next, t, q, next.rows[(t, q)])
    {
      assert RowHolds(sys, t, q, sys.rows[(t, q)]);
    }
    forall w | w in next.refreshes
      ensures RefreshHolds(next, next.refreshes[w])
    {
      assert RefreshHolds(sys, sys.refreshes[w]);
    }
  }

  /** Steps that rewrite one row and leave the sources alone. */
  lemma RowStepKept(sys: System, next: System, s: SourceId, q: Fingerprint)
    requires Inv(sys) && next.sources == sys.sources && next.changed == sys.changed && next.clock == sys.clock + 1 && next.past == sys.past
    requires forall k :: k in next.rows && k != (s, q) ==> k in sys.rows && next.rows[k] == sys.rows[k]
    requires (s, q) in next.rows ==> RowHolds(sys, s, q, next.rows[(s, q)])
    requires forall w :: w in next.refreshes ==>
               RefreshHolds(sys, next.refreshes[w]) || RefreshHolds(next, next.refreshes[w])
    ensures Inv(next)
  {
    forall t: SourceId, p: Fingerprint | (t, p) in next.rows
      ensures RowHolds(next, t, p, next.rows[(t, p)])
    {
      if (t, p) != (s, q) {
        assert RowHolds(sys, t, p, sys.rows[(t, p)]);
      }
    }
  }

  lemma GetKept(sys: System, s: SourceId, q: Fingerprint, now: Time)
    requires Inv(sys) && s in sys.sources && NotAhead(q.identity, sys.sources[s])
    ensures Inv(AfterGet(sys, s, q, now).(clock := sys.clock + 1))
  {
    if (s, q) in sys.rows {
      assert RowHolds(sys, s, q, sys.rows[(s, q)]);
    }
    RowStepKept(sys, AfterGet(sys, s, q, now).(clock := sys.clock + 1), s, q);
  }

  /** What is known of a refresh and of its row. */
  lemma RefreshKnown(sys: System, w: nat)
    requires Inv(sys) && w in sys.refreshes
    ensures RefreshHolds(sys, sys.refreshes[w])
    ensures
      var r := sys.refreshes[w];
      (r.source, r.query) in sys.rows ==> RowHolds(sys, r.source, r.query, sys.rows[(r.source, r.query)])
  {
  }

  lemma StartKept(sys: System, w: nat, authorized: bool, now: Time)
    requires Inv(sys) && w in sys.refreshes && sys.refreshes[w].Loaded? && sys.refreshes[w].source in sys.sources
    ensures Inv(AfterStart(sys, w, authorized, now).(clock := sys.clock + 1))
  {
    var r, next := sys.refreshes[w], AfterStart(sys, w, authorized, now).(clock := sys.clock + 1);
    RefreshKnown(sys, w);
    hide RowsHold;
    RowStepKept(sys, next, r.source, r.query);
  }

  lemma CommitKept(sys: System, w: nat, authorized: bool)
    requires Inv(sys) && w in sys.refreshes && sys.refreshes[w].Fetched? && sys.refreshes[w].source in sys.sources
    ensures Inv(AfterCommit(sys, w, authorized).(clock := sys.clock + 1))
  {
    var r, next := sys.refreshes[w], AfterCommit(sys, w, authorized).(clock := sys.clock + 1);
    RefreshKnown(sys, w);
    hide RowsHold;
    RowStepKept(sys, next, r.source, r.query);
  }

  lemma AbortKept(sys: System, w: nat)
    requires Inv(sys) && w in sys.refreshes
    ensures Inv(AfterAbort(sys, w).(clock := sys.clock + 1))
  {
    var r, next := sys.refreshes[w], AfterAbort(sys, w).(clock := sys.clock + 1);
    RefreshKnown(sys, w);
    hide RowsHold;
    RowStepKept(sys, next, r.source, r.query);
  }

  /** Steps that set or replace one refresh and leave the rows alone. */
  lemma SetRefreshKept(sys: System, w: nat, r: Refresh)
    requires Inv(sys) && RefreshHolds(sys, r)
    ensures Inv(sys.(refreshes := sys.refreshes[w := r], clock := sys.clock + 1))
  {
    var next := sys.(refreshes := sys.refreshes[w := r], clock := sys.clock + 1);
    forall t: SourceId, p: Fingerprint | (t, p) in next.rows
      ensures RowHolds(next, t, p, next.rows[(t, p)])
    {
      assert RowHolds(sys, t, p, sys.rows[(t, p)]);
    }
  }

  lemma ExpireKept(sys: System, s: SourceId, q: Fingerprint)
    requires Inv(sys)
    ensures Inv(sys.(rows := map k | k in sys.rows && k != (s, q) :: sys.rows[k], clock := sys.clock + 1))
  {
    var next := sys.(rows := map k | k in sys.rows && k != (s, q) :: sys.rows[k], clock := sys.clock + 1);
    RowStepKept(sys, next, s, q);
  }

  lemma StepKept(sys: System, step: Step, next: System)
    requires Inv(sys) && Next(sys, step, next) && Forward(sys, step)
    ensures Inv(next)
  {
    hide Inv, RowHolds, RefreshHolds, AfterGet, AfterStart, AfterCommit, AfterAbort, Changed, Current, FormRow;
    match step
    case Get(s, loaded, operation, parameters, customer, scope, now) =>
      LoadedEarlier(sys, s, loaded);
      GetKept(sys, s, QueryFor(sys, s, loaded, operation, parameters, customer, scope), now);
    case Load(w, s, q) =>
      LoadHolds(sys, s, q);
      SetRefreshKept(sys, w, Loaded(s, q, sys.sources[s]));
    case Start(w, authorized, now) => StartKept(sys, w, authorized, now);
    case Fetch(w, rows) =>
      FetchHolds(sys, w, rows);
      var r := sys.refreshes[w];
      SetRefreshKept(sys, w, Fetched(r.source, r.query, Data(r.query, r.conn.roleArn, r.conn.externalId, sys.clock, rows)));
    case Commit(w, authorized) => CommitKept(sys, w, authorized);
    case Abort(w) => AbortKept(sys, w);
    case Rotate(s, roleArn, externalId) =>
      ChangeKept(sys, s, sys.sources[s].(version := sys.sources[s].version + 1, roleArn := roleArn, externalId := externalId));
    case Transfer(s) => ChangeKept(sys, s, sys.sources[s].(ownership := sys.sources[s].ownership + 1));
    case SetEnabled(s, enabled) => ChangeKept(sys, s, sys.sources[s].(enabled := enabled));
    case SaveForm(s, loaded, previous, roleArn, edited) => ChangeKept(sys, s, FormRow(loaded, previous, roleArn, edited));
    case Expire(s, q) => ExpireKept(sys, s, q);
  }

  lemma LoadedEarlier(sys: System, s: SourceId, loaded: Connection)
    requires Inv(sys) && Known(sys, s) && loaded in sys.past[s]
    ensures Earlier(loaded, sys.sources[s])
  {
  }

  lemma LoadHolds(sys: System, s: SourceId, q: Fingerprint)
    requires Inv(sys) && (s, q) in sys.rows
    ensures s in sys.sources && RefreshHolds(sys, Loaded(s, q, sys.sources[s]))
  {
    assert RowHolds(sys, s, q, sys.rows[(s, q)]);
  }

  lemma FetchHolds(sys: System, w: nat, rows: seq<string>)
    requires Inv(sys) && w in sys.refreshes && sys.refreshes[w].Started?
    ensures
      var r := sys.refreshes[w];
      RefreshHolds(sys, Fetched(r.source, r.query, Data(r.query, r.conn.roleArn, r.conn.externalId, sys.clock, rows)))
  {
    assert RefreshHolds(sys, sys.refreshes[w]);
  }

  lemma {:induction false} Reachable(states: seq<System>, steps: seq<Step>, i: nat)
    requires Run(states, steps) && i < |states| && ForwardUntil(states, steps, i)
    ensures Inv(states[i])
  {
    if i == 0 {
      InitialInv(states[0]);
    } else {
      Reachable(states, steps, i - 1);
      assert Forward(states[i - 1], steps[i - 1]);
      hide Inv, Next, Forward;
      StepKept(states[i - 1], steps[i - 1], states[i]);
    }
  }

  lemma InitialInv(sys: System)
    requires Initial(sys)
    ensures Inv(sys)
  {
  }

  /** When connections only moved forward, a caller whose copy of the connection has the stored
      version gets data fetched after the last rotation and the last ownership change. */
  lemma ReturnedDataIsFresh(states: seq<System>, steps: seq<Step>, i: nat, s: SourceId, loaded: Connection,
                            operation: string, parameters: Parameters, customer: Option<nat>, scope: string)
    requires Run(states, steps) && i < |states| && ForwardUntil(states, steps, i)
    requires s in states[i].sources && s in states[i].past && loaded in states[i].past[s]
    ensures
      var sys := states[i];
      var row := RowOf(sys, s, QueryFor(sys, s, loaded, operation, parameters, customer, scope));
      row.data.Some? && loaded.version == sys.sources[s].version ==> s in sys.changed && sys.changed[s] < row.data.value.fetched
  {
    Reachable(states, steps, i);
    var sys := states[i];
    var q := QueryFor(sys, s, loaded, operation, parameters, customer, scope);
    if (s, q) in sys.rows {
      assert RowHolds(sys, s, q, sys.rows[(s, q)]);
      LoadedEarlier(sys, s, loaded);
    }
    hide Inv, Run;
  }

  const OLD := Connection(true, "role", "old external id", 3, 1)
  const NEW := Connection(true, "role", "new external id", 4, 1)
  const ASK := Fingerprint(Identity("role", "old external id", 3, 1), "get_cost_and_usage", Parameters("", []), None, "")

  /** One connection and one row with data fetched at step 4. */
  function Scene(clock: nat, conn: Connection, past: set<Connection>, changed: nat): System {
    System(clock, map[0 := conn], map[(0, ASK) := Row(Some(Data(ASK, "role", "old external id", 4, [])), false, false, Some(0))],
           map[], map[0 := past], map[0 := changed])
  }

  function Asked(clock: nat, lastAttempt: Option<Time>, refreshes: map<nat, Refresh>): System {
    System(clock, map[0 := OLD], map[(0, ASK) := Row(None, true, false, lastAttempt)], refreshes, map[0 := {OLD}], map[0 := 0])
  }

  lemma FirstFetch()
    ensures Initial(System(1, map[0 := OLD], map[], map[], map[0 := {OLD}], map[0 := 0]))
    ensures Next(System(1, map[0 := OLD], map[], map[], map[0 := {OLD}], map[0 := 0]),
                 Get(0, OLD, "get_cost_and_usage", Parameters("", []), None, "", 0), Asked(2, None, map[]))
    ensures Next(Asked(2, None, map[]), Load(0, 0, ASK), Asked(3, None, map[0 := Loaded(0, ASK, OLD)]))
    ensures Next(Asked(3, None, map[0 := Loaded(0, ASK, OLD)]), Start(0, true, 0), Asked(4, Some(0), map[0 := Started(0, ASK, OLD, 3)]))
  {
    assert (map s | s in map[0 := OLD] :: OLD) == map[0 := OLD];
  }

  lemma FirstAnswer()
    ensures
      var data := Data(ASK, "role", "old external id", 4, []);
      && Next(Asked(4, Some(0), map[0 := Started(0, ASK, OLD, 3)]), Fetch(0, []), Asked(5, Some(0), map[0 := Fetched(0, ASK, data)]))
      && Next(Asked(5, Some(0), map[0 := Fetched(0, ASK, data)]), Commit(0, true), Scene(6, OLD, {OLD}, 0))
  {
    var data := Data(ASK, "role", "old external id", 4, []);
    assert Without(Asked(5, Some(0), map[0 := Fetched(0, ASK, data)]), 0) == map[];
  }

  lemma RotationAndOldForm()
    ensures Next(Scene(6, OLD, {OLD}, 0), Rotate(0, "role", "new external id"), Scene(7, NEW, {OLD, NEW}, 6))
    ensures Next(Scene(7, NEW, {OLD, NEW}, 6), SaveForm(0, OLD, NEW, "role", false), Scene(8, OLD, {OLD, NEW}, 7))
  {
    assert {OLD} + {NEW} == {OLD, NEW} && {OLD, NEW} + {OLD} == {OLD, NEW};
  }

  /** A form opened before a rotation and saved unedited after it makes data from before the
      rotation current again: a caller gets it although the connection changed since. */
  lemma OldFormRevivesData() returns (states: seq<System>, steps: seq<Step>)
    ensures Run(states, steps) && |steps| == 7 && steps[5].Rotate? && steps[6].SaveForm?
    ensures
      var sys := states[7];
      && 0 in sys.sources && 0 in sys.changed
      && var row := RowOf(sys, 0, QueryFor(sys, 0, OLD, "get_cost_and_usage", Parameters("", []), None, ""));
      sys.sources[0] == OLD && row.data.Some? && row.data.value.fetched < sys.changed[0]
  {
    FirstFetch();
    FirstAnswer();
    RotationAndOldForm();
    hide Next, Initial;
    var data := Data(ASK, "role", "old external id", 4, []);
    steps := [Get(0, OLD, "get_cost_and_usage", Parameters("", []), None, "", 0), Load(0, 0, ASK), Start(0, true, 0), Fetch(0, []),
              Commit(0, true), Rotate(0, "role", "new external id"), SaveForm(0, OLD, NEW, "role", false)];
    states := [System(1, map[0 := OLD], map[], map[], map[0 := {OLD}], map[0 := 0]), Asked(2, None, map[]),
               Asked(3, None, map[0 := Loaded(0, ASK, OLD)]), Asked(4, Some(0), map[0 := Started(0, ASK, OLD, 3)]),
               Asked(5, Some(0), map[0 := Fetched(0, ASK, data)]), Scene(6, OLD, {OLD}, 0), Scene(7, NEW, {OLD, NEW}, 6),
               Scene(8, OLD, {OLD, NEW}, 7)];
  }

  /** A refresh that fails, is refused because the connection changed, or is interrupted keeps
      the data that is there; only a lost authorization clears it. */
  lemma FailedRefreshKeepsData(sys: System, step: Step, next: System, s: SourceId, q: Fingerprint)
    requires Next(sys, step, next) && (s, q) in sys.rows && (s, q) in next.rows
    requires next.rows[(s, q)].data != sys.rows[(s, q)].data
    ensures (step.Start? && !step.authorized && next.rows[(s, q)].data.None?) ||
            (step.Commit? && step.authorized && s in sys.sources && Current(sys, s, q) && sys.sources[s].enabled
             && step.worker in sys.refreshes && sys.refreshes[step.worker].Fetched?
             && next.rows[(s, q)].data == Some(sys.refreshes[step.worker].data) && sys.refreshes[step.worker].query == q)
  {
  }

  // --- Following pages -----------------------------------------------------------------------------

  /** A page: result lists and other fields by name. The names of lists are fixed, so no name is
      used both ways. */
  datatype Content = Content(lists: map<string, seq<string>>, fields: map<string, string>)

  type Page = Aws.Page<Content>

  const MAX_PAGES: nat := 1000

  datatype Report =
    | Complete(lists: map<string, seq<string>>, fields: map<string, string>)
    | RequestFailed | RequestLimit | RepeatedToken | TooManyPages

  function ListOf(lists: map<string, seq<string>>, key: string): seq<string> {
    if key in lists then lists[key] else []
  }

  /** All entries of one list, page after page. */
  function Joined(pages: seq<Page>, key: string): seq<string> {
    if pages == [] then [] else Joined(pages[..|pages| - 1], key) + ListOf(pages[|pages| - 1].content.lists, key)
  }

  /** The last page that has the field decides it. */
  function LastOf(pages: seq<Page>, key: string): Option<string> {
    if pages == [] then None
    else
      var last := pages[|pages| - 1];
      if key in last.content.fields then Some(last.content.fields[key]) else LastOf(pages[..|pages| - 1], key)
  }

  /** Every list of every page joined, every other field as the last page with it says. */
  ghost predicate Gathered(pages: seq<Page>, lists: map<string, seq<string>>, fields: map<string, string>) {
    && (forall key :: key in lists <==> exists i :: 0 <= i < |pages| && key in pages[i].content.lists)
    && (forall key :: ListOf(lists, key) == Joined(pages, key))
    && (forall key :: (if key in fields then Some(fields[key]) else None) == LastOf(pages, key))
  }

  function Appended(lists: map<string, seq<string>>, more: map<string, seq<string>>): map<string, seq<string>> {
    map key | key in lists.Keys + more.Keys :: ListOf(lists, key) + ListOf(more, key)
  }

  lemma NothingGathered()
    ensures Gathered([], map[], map[])
  {
  }

  lemma ListsNext(pages: seq<Page>, page: Page, lists: map<string, seq<string>>)
    requires forall key :: ListOf(lists, key) == Joined(pages, key)
    ensures forall key :: ListOf(Appended(lists, page.content.lists), key) == Joined(pages + [page], key)
  {
    assert (pages + [page])[..|pages|] == pages;
  }

  lemma NamesNext(pages: seq<Page>, page: Page, lists: map<string, seq<string>>)
    requires forall key :: key in lists <==> exists i :: 0 <= i < |pages| && key in pages[i].content.lists
    ensures
      var all := pages + [page];
      forall key :: key in Appended(lists, page.content.lists) <==> exists i :: 0 <= i < |all| && key in all[i].content.lists
  {
    var all := pages + [page];
    forall key
      ensures key in Appended(lists, page.content.lists) <==> exists i :: 0 <= i < |all| && key in all[i].content.lists
    {
      if key in lists {
        var i :| 0 <= i < |pages| && key in pages[i].content.lists;
        assert all[i] == pages[i];
      }
      assert all[|pages|] == page;
    }
  }

  lemma FieldsNext(pages: seq<Page>, page: Page, fields: map<string, string>)
    requires forall key :: (if key in fields then Some(fields[key]) else None) == LastOf(pages, key)
    ensures forall key ::
              (if key in fields + page.content.fields then Some((fields + page.content.fields)[key]) else None) == LastOf(pages + [page], key)
  {
    assert (pages + [page])[..|pages|] == pages;
  }

  lemma GatheredNext(pages: seq<Page>, page: Page, lists: map<string, seq<string>>, fields: map<string, string>)
    requires Gathered(pages, lists, fields)
    ensures Gathered(pages + [page], Appended(lists, page.content.lists), fields + page.content.fields)
  {
    ListsNext(pages, page, lists);
    NamesNext(pages, page, lists);
    FieldsNext(pages, page, fields);
    hide Joined, LastOf, ListOf, Appended;
  }

  /** `fetch_pages`: every answer read is a page, joined in order, exactly until the page without
      token. `read` replies were used up; a failure is the first give-up among them. */
  method FetchPages(meter: Meter, replies: seq<Reply<Page>>) returns (report: Report, ghost pages: seq<Page>, ghost read: nat)
    modifies meter
    ensures |pages| <= MAX_PAGES
    ensures pages == Answers(replies, read) && Linked(pages) && forall n: nat :: n < read ==> !GaveUp(replies, n)
    ensures report.Complete? ==>
              pages != [] && pages[|pages| - 1].token == "" && Gathered(pages, report.lists, report.fields)
    ensures report.RequestFailed? ==> GaveUp(replies, read)
    ensures report.RepeatedToken? ==>
              exists i :: 0 <= i < |pages| - 1 && pages[i].token == pages[|pages| - 1].token != ""
    ensures report.TooManyPages? ==> |pages| == MAX_PAGES && forall p :: p in pages ==> p.token != ""
    ensures report.RequestLimit? ==> meter.limit > 0 && meter.requests >= meter.limit
  {
    hide Gathered, Appended, Chain, Linked, Answers, GoesOn;
    NothingRead(replies);
    NothingGathered();
    pages, read := [], 0;
    var lists: map<string, seq<string>>, fields: map<string, string>, seen: set<string>, at: nat := map[], map[], {}, 0;
    assert Chain(pages, seen) by {
      NothingChained<Content>();
    }
    for n := 0 to MAX_PAGES
      invariant |pages| == n && read == at && pages == Answers(replies, at) && GoesOn(replies, at)
      invariant Chain(pages, seen) && Gathered(pages, lists, fields)
    {
      var result: CallResult<Page>, next := meter.Call(replies, at);
      ReadOn(replies, at, next);
      read := next;
      if !result.Got? {
        ChainLinked(pages, seen);
        return if result.BudgetExceeded? then RequestLimit else RequestFailed, pages, read;
      }
      var page := result.page;
      at := next;
      ghost var before := pages;
      pages := pages + [page];
      GatheredNext(before, page, lists, fields);
      ChainNext(before, seen, page);
      Steady(replies, at);
      lists, fields := Appended(lists, page.content.lists), fields + page.content.fields;
      if page.token == "" {
        return Complete(lists, fields), pages, read;
      }
      if page.token in seen {
        return RepeatedToken, pages, read;
      }
      seen := seen + {page.token};
    }
    ChainLinked(pages, seen);
    Steady(replies, at);
    return TooManyPages, pages, read;
  }
}
