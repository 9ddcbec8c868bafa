/** What each step of a cached query does to its row, and that an undisturbed refresh ends with the
    answer where the next call finds it. */
module QueryRefresh {
  import opened Options
  import opened QueryCache

  /** Only this row and this worker may change, and the row neither comes nor goes. */
  ghost predicate OnlyRow(sys: System, next: System, s: SourceId, q: Fingerprint, worker: nat) {
    && next.sources == sys.sources && next.past == sys.past && next.changed == sys.changed && next.clock == sys.clock + 1
    && next.rows.Keys == sys.rows.Keys && (forall k :: k in sys.rows && k != (s, q) ==> next.rows[k] == sys.rows[k])
    && (forall w :: w != worker ==> (w in next.refreshes <==> w in sys.refreshes)
                                    && (w in sys.refreshes ==> next.refreshes[w] == sys.refreshes[w]))
  }

  /** The worker is gone and the row is no longer asked for, with an error. */
  ghost predicate EndsFailed(sys: System, next: System, s: SourceId, q: Fingerprint, worker: nat) {
    && worker !in next.refreshes
    && ((s, q) in next.rows && (s, q) in sys.rows ==>
          next.rows[(s, q)] == sys.rows[(s, q)].(data := next.rows[(s, q)].data, requested := false, failed := true))
  }

  /** A call asks for a refresh of a new row, of one never tried and of one tried more than six hours ago;
      it changes nothing else of the row and no other row. */
  lemma GetAsks(sys: System, step: Step, next: System)
    requires Next(sys, step, next) && step.Get?
    ensures
      && step.source in sys.sources && next.sources == sys.sources && next.refreshes == sys.refreshes
      && var k := (step.source, QueryFor(sys, step.source, step.loaded, step.operation, step.parameters, step.customer, step.scope));
      && k in next.rows && next.rows == sys.rows[k := next.rows[k]]
      && (k !in sys.rows ==> next.rows[k] == Row(None, true, false, None))
      && (k in sys.rows ==>
            var row := sys.rows[k];
            && next.rows[k] == row.(requested := next.rows[k].requested)
            && (next.rows[k].requested <==> row.requested || row.lastAttempt.None? || step.now - row.lastAttempt.value > 6 * 3600))
  {
  }

  /** A refresh starts exactly if its user may still ask, and the connection it loaded is enabled, has a
      role and is the one the query names, by the ownership as it is now. Lost permission clears the
      data; a changed connection keeps it. */
  lemma StartExactly(sys: System, step: Step, next: System)
    requires Next(sys, step, next) && step.Start?
    ensures
      && step.worker in sys.refreshes && sys.refreshes[step.worker].Loaded? && sys.refreshes[step.worker].source in sys.sources
      && var r := sys.refreshes[step.worker];
      var conn, id := r.conn, r.query.identity;
      var current := conn.enabled && conn.roleArn != "" && conn.roleArn == id.roleArn && conn.externalId == id.externalId
                     && conn.version == id.version && sys.sources[r.source].ownership == id.ownership;
      var k := (r.source, r.query);
      && OnlyRow(sys, next, r.source, r.query, step.worker)
      && (step.authorized && current ==>
            && step.worker in next.refreshes && next.refreshes[step.worker] == Started(r.source, r.query, conn, sys.clock)
            && (k in sys.rows ==> next.rows[k] == sys.rows[k].(lastAttempt := Some(step.now))))
      && (!(step.authorized && current) ==>
            && EndsFailed(sys, next, r.source, r.query, step.worker)
            && (k in sys.rows ==> next.rows[k].data == if step.authorized then sys.rows[k].data else None))
  {
  }

  /** An answer is stored exactly if the connection is still enabled, still the one the query names and the
      user may still ask; otherwise the row keeps its data and gets an error. */
  lemma CommitExactly(sys: System, step: Step, next: System)
    requires Next(sys, step, next) && step.Commit?
    ensures
      && step.worker in sys.refreshes && sys.refreshes[step.worker].Fetched? && sys.refreshes[step.worker].source in sys.sources
      && var r := sys.refreshes[step.worker];
      var conn, id := sys.sources[r.source], r.query.identity;
      var current := conn.enabled && conn.roleArn == id.roleArn && conn.externalId == id.externalId && conn.version == id.version
                     && conn.ownership == id.ownership;
      var k := (r.source, r.query);
      && OnlyRow(sys, next, r.source, r.query, step.worker) && step.worker !in next.refreshes
      && (k in sys.rows ==>
            if current && step.authorized then next.rows[k] == sys.rows[k].(data := Some(r.data), requested := false, failed := false)
            else next.rows[k] == sys.rows[k].(requested := false, failed := true))
  {
  }

  /** A refresh that fails or stops leaves its error and the data. */
  lemma AbortKeepsData(sys: System, step: Step, next: System)
    requires Next(sys, step, next) && step.Abort?
    ensures
      && step.worker in sys.refreshes
      && var r := sys.refreshes[step.worker];
      && OnlyRow(sys, next, r.source, r.query, step.worker) && EndsFailed(sys, next, r.source, r.query, step.worker)
      && ((r.source, r.query) in sys.rows ==> next.rows[(r.source, r.query)].data == sys.rows[(r.source, r.query)].data)
  {
  }

  /** A form saved without anything in between changes the role and raises the version exactly if it
      changes the role or what else it edits. */
  lemma EditRaisesVersion(loaded: Connection, roleArn: string, edited: bool)
    ensures
      var row := FormRow(loaded, loaded, roleArn, edited);
      && row == loaded.(roleArn := roleArn, version := row.version)
      && row.version == loaded.version + if roleArn != loaded.roleArn || edited then 1 else 0
  {
  }

  // --- An undisturbed refresh ----------------------------------------------------------------------

  /** Two steps of the worker in a row: it loads the source and starts. */
  lemma LoadsAndStarts(sys: System, worker: nat, s: SourceId, q: Fingerprint, now: Time) returns (loaded: System, started: System)
    requires worker !in sys.refreshes && (s, q) in sys.rows && s in sys.sources
    requires sys.sources[s].enabled && sys.sources[s].roleArn != "" && Key(sys.sources[s], sys.sources[s].ownership) == q.identity
    ensures Next(sys, Load(worker, s, q), loaded) && Next(loaded, Start(worker, true, now), started)
    ensures started.sources == sys.sources && worker in started.refreshes && started.clock == sys.clock + 2
    ensures started.refreshes[worker] == Started(s, q, sys.sources[s], sys.clock + 1)
    ensures started.rows == sys.rows[(s, q) := sys.rows[(s, q)].(lastAttempt := Some(now))]
  {
    loaded := sys.(refreshes := sys.refreshes[worker := Loaded(s, q, sys.sources[s])], clock := sys.clock + 1);
    started := AfterStart(loaded, worker, true, now).(clock := sys.clock + 2);
    assert AfterStart(loaded.(clock := loaded.clock), worker, true, now).(clock := loaded.clock) == started.(clock := loaded.clock);
  }

  lemma FetchesAndCommits(sys: System, worker: nat, s: SourceId, q: Fingerprint, answer: seq<string>) returns (fetched: System, stored: System)
    requires worker in sys.refreshes && sys.refreshes[worker].Started? && sys.refreshes[worker].source == s && sys.refreshes[worker].query == q
    requires s in sys.sources && (s, q) in sys.rows && sys.refreshes[worker].conn == sys.sources[s]
    requires sys.sources[s].enabled && Key(sys.sources[s], sys.sources[s].ownership) == q.identity
    ensures Next(sys, Fetch(worker, answer), fetched) && Next(fetched, Commit(worker, true), stored)
    ensures stored.sources == sys.sources && worker !in stored.refreshes && (s, q) in stored.rows
    ensures
      var row := stored.rows[(s, q)];
      && row == sys.rows[(s, q)].(data := row.data, requested := false, failed := false)
      && row.data == Some(Data(q, sys.sources[s].roleArn, sys.sources[s].externalId, sys.clock, answer))
  {
    var data := Data(q, sys.sources[s].roleArn, sys.sources[s].externalId, sys.clock, answer);
    fetched := sys.(refreshes := sys.refreshes[worker := Fetched(s, q, data)], clock := sys.clock + 1);
    stored := AfterCommit(fetched, worker, true).(clock := sys.clock + 2);
    assert AfterCommit(fetched, worker, true) == stored.(clock := fetched.clock);
  }

  /** A refresh of a current query that nothing disturbs stores the answer, and a call made for the same
      request with the connection as it is finds it there. */
  lemma RefreshIsServed(sys: System, worker: nat, s: SourceId, operation: string, parameters: Parameters, customer: Option<nat>,
                        scope: string, now: Time, answer: seq<string>)
    returns (states: seq<System>, steps: seq<Step>)
    requires s in sys.sources && worker !in sys.refreshes && sys.sources[s].enabled && sys.sources[s].roleArn != ""
    requires (s, QueryFor(sys, s, sys.sources[s], operation, parameters, customer, scope)) in sys.rows
    ensures |states| == 5 && |steps| == 4 && states[0] == sys && forall i :: 0 <= i < 4 ==> Next(states[i], steps[i], states[i + 1])
    ensures
      var end := states[4];
      && s in end.sources && end.sources == sys.sources
      && var row := RowOf(end, s, QueryFor(end, s, end.sources[s], operation, parameters, customer, scope));
      row.data.Some? && row.data.value.rows == answer && !row.requested && !row.failed && row.lastAttempt == Some(now)
  {
    var q := QueryFor(sys, s, sys.sources[s], operation, parameters, customer, scope);
    var loaded, started := LoadsAndStarts(sys, worker, s, q, now);
    var fetched, stored := FetchesAndCommits(started, worker, s, q, answer);
    hide Next;
    states := [sys, loaded, started, fetched, stored];
    steps := [Load(worker, s, q), Start(worker, true, now), Fetch(worker, answer), Commit(worker, true)];
  }
}
