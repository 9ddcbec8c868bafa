/** Activation requests: an administrator's frozen intent, carried out by one runtime that holds
    a host-wide lock, while operators may edit the connection at any time. */
module Activation {
  import opened Options

  type SourceId = nat
  type RequestId = nat

  const MAX_ATTEMPTS: nat := 5

  /** `source_snapshot`: the connection version, the fields the connection form edits, and
      everything else that is compared. */
  datatype Snapshot = Snapshot(version: nat, form: string, rest: string)

  datatype Status = Queued | Processing | Verifying | Importing | Completed | Failed

  /** `errors` counts the service errors the request has met. */
  datatype Request = Request(source: SourceId, snapshot: Snapshot, status: Status, attempts: nat, errors: nat) {
    predicate Active() {
      !status.Completed? && !status.Failed?
    }

    predicate Starting() {
      status.Queued? || status.Processing?
    }
  }

  /** `past` holds every state a connection ever had: any of them may still be in the memory of
      a request that loaded the row. */
  datatype System = System(sources: map<SourceId, Snapshot>, requests: map<RequestId, Request>, past: map<SourceId, set<Snapshot>>)

  /** What carrying out one part may come to. */
  datatype Outcome = Success | NotYet | Invalid | ServiceError

  datatype Step =
    | Submit(id: RequestId, source: SourceId)
    | Begin(id: RequestId)
    | Start(id: RequestId, outcome: Outcome)
    | Progress(id: RequestId, outcome: Outcome)
    | Bump(source: SourceId, rest: string)
    | Edit(source: SourceId, rest: string)
    | SaveForm(source: SourceId, loaded: Snapshot, previous: Snapshot, form: string)

  predicate Unchanged(sources: map<SourceId, Snapshot>, r: Request) {
    r.source in sources && sources[r.source] == r.snapshot
  }

  /** What the connection form writes: all columns as its request loaded them, with the edited
      fields; the loaded version is raised if the edit differs from a second, later read. */
  function FormRow(loaded: Snapshot, previous: Snapshot, form: string): Snapshot {
    Snapshot(loaded.version + if form != previous.form then 1 else 0, form, loaded.rest)
  }

  function WithSource(sys: System, s: SourceId, snapshot: Snapshot): System
    requires s in sys.past
  {
    sys.(sources := sys.sources[s := snapshot], past := sys.past[s := sys.past[s] + {snapshot}])
  }

  /** The exception branch of `process_activation`: the attempt counts, the fifth fails. */
  function AfterServiceError(r: Request): Request {
    var attempts := if r.Starting() then r.attempts else r.attempts + 1;
    r.(attempts := attempts, errors := r.errors + 1,
       status := if attempts >= MAX_ATTEMPTS then Failed else if r.Starting() then Queued else r.status)
  }

  function AfterStart(r: Request, outcome: Outcome): Request {
    match outcome
    case Success => r.(status := Verifying)
    case NotYet => r
    case Invalid => r.(status := Failed)
    case ServiceError => AfterServiceError(r)
  }

  function AfterProgress(r: Request, outcome: Outcome): Request {
    match outcome
    case Success => r.(status := Completed)
    case NotYet => r
    case Invalid => r.(status := Failed)
    case ServiceError => AfterServiceError(r)
  }

  /** `_start` and `_progress` hold the rows of the request and of the source; they succeed, or
      wait, only when the connection still equals the snapshot. */
  ghost predicate Next(sys: System, step: Step, next: System) {
    match step
    case Submit(id, s) =>
      && id !in sys.requests && s in sys.sources
      && (forall r :: r in sys.requests && sys.requests[r].source == s ==> !sys.requests[r].Active())
      && next == sys.(requests := sys.requests[id := Request(s, sys.sources[s], Queued, 0, 0)])
    case Begin(id) =>
      && id in sys.requests && sys.requests[id].Starting()
      && next == sys.(requests := sys.requests[id := sys.requests[id].(status := Processing, attempts := sys.requests[id].attempts + 1)])
    case Start(id, outcome) =>
      && id in sys.requests && sys.requests[id].status.Processing? && !outcome.NotYet?
      && (outcome.Success? ==> Unchanged(sys.sources, sys.requests[id]))
      && next == sys.(requests := sys.requests[id := AfterStart(sys.requests[id], outcome)])
    case Progress(id, outcome) =>
      && id in sys.requests && (sys.requests[id].status.Verifying? || sys.requests[id].status.Importing?)
      && (outcome.Success? || outcome.NotYet? ==> Unchanged(sys.sources, sys.requests[id]))
      && next == sys.(requests := sys.requests[id := AfterProgress(sys.requests[id], outcome)])
    case Bump(s, rest) =>
      && s in sys.sources && s in sys.past
      && next == WithSource(sys, s, sys.sources[s].(version := sys.sources[s].version + 1, rest := rest))
    case Edit(s, rest) =>
      s in sys.sources && s in sys.past && next == WithSource(sys, s, sys.sources[s].(rest := rest))
    case SaveForm(s, loaded, previous, form) =>
      && s in sys.sources && s in sys.past && loaded in sys.past[s] && previous in sys.past[s]
      && next == WithSource(sys, s, FormRow(loaded, previous, form))
  }

  ghost predicate Run(states: seq<System>, steps: seq<Step>) {
    && |states| == |steps| + 1
    && states[0].requests == map[] && states[0].past == (map s | s in states[0].sources :: {states[0].sources[s]})
    && forall i :: 0 <= i < |steps| ==> Next(states[i], steps[i], states[i + 1])
  }

  /** While active or completed, a request met fewer than five service errors, each of them
      counted as an attempt; a processing request has begun at least one attempt more than the
      errors so far. */
  ghost predicate RequestHolds(sys: System, r: Request) {
    && r.source in sys.sources
    && r.errors <= r.attempts && r.errors <= MAX_ATTEMPTS
    && (r.Active() || r.status.Completed? ==> r.errors < MAX_ATTEMPTS)
    && (r.status.Processing? ==> r.errors < r.attempts)
  }

  ghost predicate Inv(sys: System) {
    && (forall id :: id in sys.requests ==> RequestHolds(sys, sys.requests[id]))
    && (forall a, b :: a in sys.requests && b in sys.requests && a != b && sys.requests[a].Active() && sys.requests[b].Active()
          ==> sys.requests[a].source != sys.requests[b].source)
  }

  /** Finished requests are never touched, snapshots never change, sources stay. */
  ghost predicate Keeps(sys: System, next: System) {
    && (forall s :: s in sys.sources ==> s in next.sources)
    && (forall id :: id in sys.requests ==>
          && id in next.requests && next.requests[id].source == sys.requests[id].source
          && next.requests[id].snapshot == sys.requests[id].snapshot
          && (!sys.requests[id].Active() ==> next.requests[id] == sys.requests[id]))
  }

  /** One active request moves. */
  lemma MoveKept(sys: System, id: RequestId, r: Request)
    requires Inv(sys) && id in sys.requests && sys.requests[id].Active()
    requires r.source == sys.requests[id].source && r.snapshot == sys.requests[id].snapshot
    requires RequestHolds(sys, sys.requests[id]) ==> RequestHolds(sys, r)
    ensures Inv(sys.(requests := sys.requests[id := r])) && Keeps(sys, sys.(requests := sys.requests[id := r]))
  {
    var next := sys.(requests := sys.requests[id := r]);
    forall k | k in next.requests
      ensures RequestHolds(next, next.requests[k])
    {
      assert RequestHolds(sys, sys.requests[k]);
    }
  }

  lemma SourceKept(sys: System, s: SourceId, snapshot: Snapshot)
    requires Inv(sys) && s in sys.sources && s in sys.past
    ensures Inv(WithSource(sys, s, snapshot)) && Keeps(sys, WithSource(sys, s, snapshot))
  {
    var next := WithSource(sys, s, snapshot);
    forall k | k in next.requests
      ensures RequestHolds(next, next.requests[k])
    {
      assert RequestHolds(sys, sys.requests[k]);
    }
  }

  lemma StepKept(sys: System, step: Step, next: System)
    requires Inv(sys) && Next(sys, step, next)
    ensures Inv(next) && Keeps(sys, next)
  {
    match step
    case Submit(id, s) => SubmitKept(sys, id, s);
    case Begin(id) =>
      hide Inv, Keeps;
      MoveKept(sys, id, sys.requests[id].(status := Processing, attempts := sys.requests[id].attempts + 1));
    case Start(id, outcome) =>
      hide Inv, Keeps;
      MoveKept(sys, id, AfterStart(sys.requests[id], outcome));
    case Progress(id, outcome) =>
      hide Inv, Keeps;
      MoveKept(sys, id, AfterProgress(sys.requests[id], outcome));
    case Bump(s, rest) => SourceKept(sys, s, sys.sources[s].(version := sys.sources[s].version + 1, rest := rest));
    case Edit(s, rest) => SourceKept(sys, s, sys.sources[s].(rest := rest));
    case SaveForm(s, loaded, previous, form) => SourceKept(sys, s, FormRow(loaded, previous, form));
  }

  lemma SubmitKept(sys: System, id: RequestId, s: SourceId)
    requires Inv(sys) && id !in sys.requests && s in sys.sources
    requires forall r :: r in sys.requests && sys.requests[r].source == s ==> !sys.requests[r].Active()
    ensures
      var next := sys.(requests := sys.requests[id := Request(s, sys.sources[s], Queued, 0, 0)]);
      Inv(next) && Keeps(sys, next)
  {
    var next := sys.(requests := sys.requests[id := Request(s, sys.sources[s], Queued, 0, 0)]);
    forall k | k in next.requests
      ensures RequestHolds(next, next.requests[k])
    {
      assert k != id ==> RequestHolds(sys, sys.requests[k]);
    }
  }

  lemma {:induction false} Reachable(states: seq<System>, steps: seq<Step>, i: nat)
    requires Run(states, steps) && i < |states|
    ensures Inv(states[i])
  {
    if i > 0 {
      Reachable(states, steps, i - 1);
      StepKept(states[i - 1], steps[i - 1], states[i]);
    }
  }

  /** Requests keep their snapshot and finished ones keep everything. */
  lemma {:induction false} RunKeeps(states: seq<System>, steps: seq<Step>, i: nat, j: nat, id: RequestId)
    requires Run(states, steps) && i <= j < |states| && id in states[i].requests
    ensures id in states[j].requests
    ensures states[j].requests[id].source == states[i].requests[id].source
    ensures states[j].requests[id].snapshot == states[i].requests[id].snapshot
    ensures !states[i].requests[id].Active() ==> states[j].requests[id] == states[i].requests[id]
    decreases j
  {
    hide Next, Inv;
    if i < j {
      RunKeeps(states, steps, i, j - 1, id);
      Reachable(states, steps, j - 1);
      StepKept(states[j - 1], steps[j - 1], states[j]);
    }
  }

  // --- What one step may do -----------------------------------------------------------------------------

  /** A request is accepted exactly if its source has no active one. */
  lemma SubmittedExactly(sys: System, id: RequestId, s: SourceId)
    requires id !in sys.requests && s in sys.sources
    ensures (exists next :: Next(sys, Submit(id, s), next)) <==>
            !exists r :: r in sys.requests && sys.requests[r].source == s && sys.requests[r].Active()
  {
    var next := sys.(requests := sys.requests[id := Request(s, sys.sources[s], Queued, 0, 0)]);
    if !exists r :: r in sys.requests && sys.requests[r].source == s && sys.requests[r].Active() {
      assert Next(sys, Submit(id, s), next);
    }
  }

  /** A rotation and every other edit that changes something leave no request of the source unchanged; a
      rotation raises the version. */
  lemma EditsInvalidate(sys: System, step: Step, next: System, r: Request)
    requires Next(sys, step, next) && Unchanged(sys.sources, r)
    requires (step.Bump? && step.source == r.source) || (step.Edit? && step.source == r.source && step.rest != r.snapshot.rest)
    ensures !Unchanged(next.sources, r)
    ensures r.source in next.sources && next.sources[r.source].rest == step.rest && next.sources[r.source].form == r.snapshot.form
    ensures step.Bump? <==> next.sources[r.source].version > r.snapshot.version
  {
  }

  /** A request moves on to the checks, and completes, only while the connection is the one it was made
      for; whatever else happens, a request that moves on was one step before. */
  lemma MovesOnlyUnchanged(sys: System, step: Step, next: System, id: RequestId)
    requires Next(sys, step, next) && id in sys.requests && id in next.requests && next.requests[id] != sys.requests[id]
    ensures next.requests[id].status.Verifying? && !sys.requests[id].status.Verifying? ==>
              step == Start(id, Success) && sys.requests[id].status.Processing? && Unchanged(sys.sources, sys.requests[id])
    ensures next.requests[id].status.Completed? ==>
              step == Progress(id, Success) && !sys.requests[id].Starting() && sys.requests[id].Active()
              && Unchanged(sys.sources, sys.requests[id])
  {
  }

  /** A service error counts as one attempt, already counted when the start began. The fifth fails the
      request, otherwise it starts again, or stays where it was if it had started. */
  lemma ServiceErrorExactly(r: Request)
    requires r.Active()
    ensures
      var after := AfterServiceError(r);
      && after == r.(status := after.status, attempts := after.attempts, errors := r.errors + 1)
      && after.attempts == r.attempts + (if r.status.Queued? || r.status.Processing? then 0 else 1)
      && (after.status.Failed? <==> after.attempts >= 5)
      && (!after.status.Failed? ==> after.status == if r.status.Processing? then Queued else r.status)
  {
  }

  function ErrorSteps(steps: seq<Step>, id: RequestId): nat {
    if steps == [] then 0
    else
      var step := steps[|steps| - 1];
      ErrorSteps(steps[..|steps| - 1], id) + if step == Start(id, ServiceError) || step == Progress(id, ServiceError) then 1 else 0
  }

  lemma ErrorStep(sys: System, step: Step, next: System, id: RequestId)
    requires Next(sys, step, next) && id in next.requests
    ensures id !in sys.requests ==> next.requests[id].errors == 0 && step != Start(id, ServiceError) && step != Progress(id, ServiceError)
    ensures id in sys.requests ==>
              next.requests[id].errors == sys.requests[id].errors + if step == Start(id, ServiceError) || step == Progress(id, ServiceError) then 1 else 0
  {
  }

  /** The errors of a request are the service errors there were. */
  lemma {:induction false} ErrorsCounted(states: seq<System>, steps: seq<Step>, i: nat, id: RequestId)
    requires Run(states, steps) && i < |states|
    ensures ErrorSteps(steps[..i], id) == if id in states[i].requests then states[i].requests[id].errors else 0
  {
    hide Next, Inv;
    if i > 0 {
      ErrorsCounted(states, steps, i - 1, id);
      Reachable(states, steps, i - 1);
      StepKept(states[i - 1], steps[i - 1], states[i]);
      assert steps[..i][..i - 1] == steps[..i - 1];
      if id in states[i].requests {
        ErrorStep(states[i - 1], steps[i - 1], states[i], id);
      } else {
        NoRequest(states[i - 1], steps[i - 1], states[i], id);
      }
    }
  }

  lemma NoRequest(sys: System, step: Step, next: System, id: RequestId)
    requires Next(sys, step, next) && id !in next.requests
    ensures id !in sys.requests && step != Start(id, ServiceError) && step != Progress(id, ServiceError)
  {
  }

  // --- Versions and the connection form --------------------------------------------------------------

  /** The step does not write a lower version of the connection than the stored one. */
  predicate Forward(sys: System, step: Step, s: SourceId) {
    step.SaveForm? && step.source == s && s in sys.sources ==>
      sys.sources[s].version <= FormRow(step.loaded, step.previous, step.form).version
  }

  /** A form saved without anything in between raises the version exactly if it changes what it edits. */
  lemma EditRaisesVersion(loaded: Snapshot, form: string)
    ensures
      var row := FormRow(loaded, loaded, form);
      && row.form == form && row.rest == loaded.rest
      && (if form == loaded.form then row == loaded else row.version == loaded.version + 1)
  {
  }

  /** Saving the form is the only way to lower a version. */
  lemma VersionStep(sys: System, step: Step, next: System, s: SourceId)
    requires Next(sys, step, next) && s in sys.sources
    ensures s in next.sources && (Forward(sys, step, s) <==> sys.sources[s].version <= next.sources[s].version)
  {
  }

  lemma {:induction false} VersionsGrow(states: seq<System>, steps: seq<Step>, i: nat, j: nat, s: SourceId)
    requires Run(states, steps) && i <= j < |states| && s in states[i].sources
    requires forall k :: i <= k < j ==> Forward(states[k], steps[k], s)
    ensures s in states[j].sources && states[i].sources[s].version <= states[j].sources[s].version
    decreases j
  {
    hide Next, Forward;
    if i < j {
      VersionsGrow(states, steps, i, j - 1, s);
      VersionStep(states[j - 1], steps[j - 1], states[j], s);
    }
  }

  /** A request that completes finds the connection as it was when the administrator asked. The
      connection had that version all the time in between exactly if no form saved meanwhile
      wrote a lower version than it found. */
  lemma CompletedUnderOneVersion(states: seq<System>, steps: seq<Step>, i: nat, j: nat, id: RequestId)
    requires Run(states, steps) && i < j < |steps|
    requires steps[i].Submit? && steps[i].id == id && steps[j] == Progress(id, Success)
    ensures
      var s := steps[i].source;
      && s in states[i].sources && s in states[j].sources && states[j].sources[s] == states[i].sources[s]
      && id in states[j + 1].requests && states[j + 1].requests[id].status.Completed?
      && ((forall k :: i <= k <= j ==> s in states[k].sources && states[k].sources[s].version == states[i].sources[s].version) <==>
          (forall k :: i <= k < j ==> Forward(states[k], steps[k], s)))
  {
    var s := steps[i].source;
    assert Next(states[i], steps[i], states[i + 1]) && Next(states[j], steps[j], states[j + 1]);
    RunKeeps(states, steps, i + 1, j, id);
    if forall k :: i <= k < j ==> Forward(states[k], steps[k], s) {
      forall k | i <= k <= j
        ensures s in states[k].sources && states[k].sources[s].version == states[i].sources[s].version
      {
        VersionsGrow(states, steps, i, k, s);
        VersionsGrow(states, steps, k, j, s);
      }
    }
    if forall k :: i <= k <= j ==> s in states[k].sources && states[k].sources[s].version == states[i].sources[s].version {
      forall k | i <= k < j
        ensures Forward(states[k], steps[k], s)
      {
        assert s in states[k].sources && s in states[k + 1].sources;
        assert Next(states[k], steps[k], states[k + 1]);
        VersionStep(states[k], steps[k], states[k + 1], s);
      }
    }
  }

  const OLD := Snapshot(3, "role", "old external id")
  const NEW := Snapshot(4, "role", "new external id")

  /** One connection and its one request. */
  function Scene(now: Snapshot, status: Status, attempts: nat, past: set<Snapshot>): System {
    System(map[0 := now], map[0 := Request(0, OLD, status, attempts, 0)], map[0 := past])
  }

  lemma RotationAndOldForm()
    ensures Next(Scene(OLD, Verifying, 1, {OLD}), Bump(0, NEW.rest), Scene(NEW, Verifying, 1, {OLD, NEW}))
    ensures Next(Scene(NEW, Verifying, 1, {OLD, NEW}), SaveForm(0, OLD, NEW, "role"), Scene(OLD, Verifying, 1, {OLD, NEW}))
  {
    assert {OLD} + {NEW} == {OLD, NEW} && {OLD, NEW} + {OLD} == {OLD, NEW};
  }

  lemma RequestMoves()
    ensures
      var start := System(map[0 := OLD], map[], map[0 := {OLD}]);
      Next(start, Submit(0, 0), Scene(OLD, Queued, 0, {OLD})) && start.past == (map s | s in start.sources :: {start.sources[s]})
    ensures Next(Scene(OLD, Queued, 0, {OLD}), Begin(0), Scene(OLD, Processing, 1, {OLD}))
    ensures Next(Scene(OLD, Processing, 1, {OLD}), Start(0, Success), Scene(OLD, Verifying, 1, {OLD}))
    ensures Next(Scene(OLD, Verifying, 1, {OLD, NEW}), Progress(0, Success), Scene(OLD, Completed, 1, {OLD, NEW}))
  {
  }

  /** A form opened before a rotation and saved unedited after it brings the old connection back,
      and a request from before the rotation completes. */
  lemma OldFormLetsRequestComplete() returns (states: seq<System>, steps: seq<Step>)
    ensures Run(states, steps) && |steps| == 6
    ensures steps[0] == Submit(0, 0) && steps[3].Bump? && steps[4].SaveForm? && steps[5] == Progress(0, Success)
    ensures 0 in states[1].sources && states[1].sources[0].version == 3
    ensures 0 in states[4].sources && states[4].sources[0].version == 4
    ensures 0 in states[6].requests && states[6].requests[0].status.Completed? && states[6].requests[0].snapshot.version == 3
  {
    RequestMoves();
    RotationAndOldForm();
    hide Next;
    steps := [Submit(0, 0), Begin(0), Start(0, Success), Bump(0, NEW.rest), SaveForm(0, OLD, NEW, "role"), Progress(0, Success)];
    states := [System(map[0 := OLD], map[], map[0 := {OLD}]),
               Scene(OLD, Queued, 0, {OLD}), Scene(OLD, Processing, 1, {OLD}), Scene(OLD, Verifying, 1, {OLD}),
               Scene(NEW, Verifying, 1, {OLD, NEW}), Scene(OLD, Verifying, 1, {OLD, NEW}), Scene(OLD, Completed, 1, {OLD, NEW})];
  }

  /** A request meets at most five service errors in a run, and the fifth has failed it. */
  lemma FailsByFifthError(states: seq<System>, steps: seq<Step>, i: nat, id: RequestId)
    requires Run(states, steps) && i < |states| && id in states[i].requests
    ensures ErrorSteps(steps[..i], id) == states[i].requests[id].errors <= 5
    ensures ErrorSteps(steps[..i], id) == 5 ==> states[i].requests[id].status.Failed?
  {
    hide Next, ErrorSteps;
    Reachable(states, steps, i);
    ErrorsCounted(states, steps, i, id);
  }

  /** No request of a source is submitted while another one is active. */
  lemma OneActivePerSource(states: seq<System>, steps: seq<Step>, i: nat, a: RequestId, b: RequestId)
    requires Run(states, steps) && i < |states| && a in states[i].requests && b in states[i].requests
    requires states[i].requests[a].Active() && states[i].requests[b].Active() && states[i].requests[a].source == states[i].requests[b].source
    ensures a == b
  {
    Reachable(states, steps, i);
  }

  // --- One pass of the runtime -------------------------------------------------------------------------

  class Runtime {
    var sources: map<SourceId, Snapshot>
    var requests: map<RequestId, Request>
    ghost const past: map<SourceId, set<Snapshot>>

    ghost function State(): System
      reads this
    {
      System(sources, requests, past)
    }

    constructor (sources: map<SourceId, Snapshot>)
      ensures this.sources == sources && requests == map[] && Inv(State())
    {
      this.sources, requests := sources, map[];
      past := map s | s in sources :: {sources[s]};
    }

    /** `process_activation`: count the attempt first, then start or continue. `outcome` is what
        the broker, AWS and the checks come to when the connection is unchanged. */
    method ProcessActivation(id: RequestId, outcome: Outcome)
      requires Inv(State()) && id in requests && (outcome.NotYet? ==> !requests[id].Starting())
      modifies this`requests
      ensures Inv(State())
      ensures requests.Keys == old(requests).Keys && forall k :: k in requests && k != id ==> requests[k] == old(requests)[k]
      ensures !old(requests)[id].Active() ==> requests == old(requests)
      // Only a connection equal to the snapshot moves a request forward, and then a success does.
      ensures old(requests)[id].Active() && !outcome.ServiceError? ==>
                && requests[id].attempts == old(requests)[id].attempts + (if old(requests)[id].Starting() then 1 else 0)
                && requests[id].errors == old(requests)[id].errors
                && (requests[id].status.Failed? <==> outcome.Invalid? || !Unchanged(sources, old(requests)[id]))
                && (outcome.Success? && !requests[id].status.Failed? ==>
                      requests[id].status == if old(requests)[id].Starting() then Verifying else Completed)
                && (outcome.NotYet? && !requests[id].status.Failed? ==> requests == old(requests))
      ensures old(requests)[id].Active() && outcome.ServiceError? ==>
                && requests[id].attempts == old(requests)[id].attempts + 1 && requests[id].errors == old(requests)[id].errors + 1
                && requests[id].status == if requests[id].attempts >= MAX_ATTEMPTS then Failed
                                          else if old(requests)[id].Starting() then Queued else old(requests)[id].status
      ensures requests[id].source == old(requests)[id].source && requests[id].snapshot == old(requests)[id].snapshot
    {
      var r := requests[id];
      ghost var before := State();
      if !r.Active() {
        return;
      }
      if r.Starting() {
        requests := requests[id := r.(status := Processing, attempts := r.attempts + 1)];
        StepKept(before, Begin(id), State());
        ghost var begun := State();
        var result := if outcome.ServiceError? then ServiceError
                      else if outcome.Success? && Unchanged(sources, r) then Success
                      else Invalid;
        requests := requests[id := AfterStart(requests[id], result)];
        StepKept(begun, Start(id, result), State());
      } else {
        var result := if outcome.ServiceError? || outcome.Invalid? then outcome
                      else if Unchanged(sources, r) then outcome
                      else Invalid;
        requests := requests[id := AfterProgress(requests[id], result)];
        StepKept(before, Progress(id, result), State());
      }
    }
  }
}
