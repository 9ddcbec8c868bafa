/** The onboarding broker: a versioned set of roles in one store, written only under a
    condition on its version, mirrored into a policy whose reads may be out of date.

    Calls run interleaved, one step per request they make to a store, and may stop after
    any step. An absent policy reads as the empty set. */
module Broker {
  import opened Options
  import opened Text

  type Role = string
  type CallId = nat

  const MAX_POLICY_CHARACTERS: nat := 4096
  const CONFIRMATIONS: nat := 7

  // --- Roles and the policy text -----------------------------------------------------------

  predicate NameChar(c: char) {
    'A' <= c <= 'Z' || 'a' <= c <= 'z' || '0' <= c <= '9' || c in "+=,.@_-"
  }

  /** The characters before the first slash, or all of them. */
  function FirstSegment(s: string): (n: nat)
    ensures n <= |s|
  {
    if s == "" || s[0] == '/' then 0 else 1 + FirstSegment(s[1..])
  }

  /** Slash-separated non-empty names, the last of at most 64 characters. */
  predicate RolePath(s: string)
    decreases |s|
  {
    var n := FirstSegment(s);
    && n >= 1
    && (forall i :: 0 <= i < n ==> NameChar(s[i]))
    && if n == |s| then n <= 64 else RolePath(s[n + 1..])
  }

  /** Length of the last name of a path. */
  function LastSegment(s: string): (n: nat)
    ensures n <= |s|
    decreases |s|
  {
    var n := FirstSegment(s);
    if n == |s| then n else LastSegment(s[n + 1..])
  }

  const PARTITION := "arn:aws:iam::"
  const ROLE_PATH := ":role/BillingConsole/"

  predicate ValidRole(v: Role) {
    var at := |PARTITION|;
    && at + 12 + |ROLE_PATH| <= |v| <= 610
    && v[..at] == PARTITION
    && (forall i :: at <= i < at + 12 ==> '0' <= v[i] <= '9')
    && v[at + 12..at + 12 + |ROLE_PATH|] == ROLE_PATH
    && var path := v[at + 12 + |ROLE_PATH|..];
    && RolePath(path)
    // "/BillingConsole/.../": everything after ":role" up to the last slash.
    && |"/BillingConsole/"| + |path| - LastSegment(path) <= 512
  }

  function Quoted(roles: seq<Role>): string {
    if roles == [] then ""
    else "\"" + roles[0] + "\"" + (if |roles| == 1 then "" else "," + Quoted(roles[1..]))
  }

  const HEAD := "{\"Statement\":[{\"Action\":\"sts:AssumeRole\",\"Effect\":\"Allow\",\"Resource\":["
  const TAIL := "],\"Sid\":\"DashboardOnboardedCustomerRoles\"}],\"Version\":\"2012-10-17\"}"

  /** `serialize_policy`: keys sorted, no spaces. */
  function Document(roles: set<Role>): string {
    HEAD + Quoted(Sorted(roles)) + TAIL
  }

  predicate Fits(roles: set<Role>) {
    |Document(roles)| <= MAX_POLICY_CHARACTERS
  }

  /** What both readers demand of a stored set. */
  predicate Canonical(roles: set<Role>) {
    roles != {} && (forall r :: r in roles ==> ValidRole(r)) && Fits(roles)
  }

  // --- The system --------------------------------------------------------------------------

  datatype Error =
    | InvalidRequest | ServiceFailed | UnexpectedPolicy | InvalidState | AbsentFromState | OverCapacity
    | ChangedConcurrently | NotSaved | NotActivated | Unconfirmed

  datatype Result = Allowed(role: Role, roles: set<Role>) | Refused(error: Error)

  datatype Item = Item(roles: set<Role>, version: nat)

  datatype Phase =
    | Asked(role: Role)
    | PolicyRead(role: Role, existing: set<Role>)
    | Persisting(role: Role, existing: set<Role>, updated: set<Role>, version: Option<nat>)
    | Saved(role: Role, existing: set<Role>, updated: set<Role>)
    | Confirming(role: Role, updated: set<Role>, tries: nat)
    | Ended(result: Result)

  /** `stored` lists every set the state ever held; `written` every value the policy ever had. */
  datatype System = System(
    item: Option<Item>,
    policy: set<Role>,
    calls: map<CallId, Phase>,
    stored: seq<set<Role>>,
    written: set<set<Role>>)

  datatype Step =
    | Begin(call: CallId, role: Role)
    | ReadPolicy(call: CallId, seen: set<Role>)
    | ReadState(call: CallId)
    | Persist(call: CallId, answered: bool)
    | Activate(call: CallId, answered: bool)
    | Confirm(call: CallId, seen: set<Role>)
    | Stop(call: CallId)

  function StateRoles(sys: System): set<Role> {
    if sys.item.Some? then sys.item.value.roles else {}
  }

  function At(sys: System, call: CallId, phase: Phase): System {
    sys.(calls := sys.calls[call := phase])
  }

  /** Everything a call decides between reading the state and saving it. */
  function Decide(role: Role, existing: set<Role>, item: Option<Item>): Phase {
    if item.Some? && !(Canonical(item.value.roles) && item.value.version >= 1) then Ended(Refused(InvalidState))
    else
      var desired := if item.Some? then item.value.roles else {};
      var updated := desired + {role};
      if !(existing <= desired) then Ended(Refused(AbsentFromState))
      else if !Fits(updated) then Ended(Refused(OverCapacity))
      else if updated != desired then
        Persisting(role, existing, updated, if item.Some? then Some(item.value.version) else None)
      else Saved(role, existing, updated)
  }

  function Version(item: Option<Item>): Option<nat> {
    if item.Some? then Some(item.value.version) else None
  }

  function AfterPersist(sys: System, call: CallId, answered: bool): System
    requires call in sys.calls && sys.calls[call].Persisting?
  {
    var p := sys.calls[call];
    if Version(sys.item) != p.version then At(sys, call, Ended(Refused(ChangedConcurrently)))
    else
      var next := (if p.version.Some? then p.version.value else 0) + 1;
      At(sys, call, if answered then Saved(p.role, p.existing, p.updated) else Ended(Refused(NotSaved)))
        .(item := Some(Item(p.updated, next)), stored := sys.stored + [p.updated])
  }

  function AfterActivate(sys: System, call: CallId, answered: bool): System
    requires call in sys.calls && sys.calls[call].Saved?
  {
    var p := sys.calls[call];
    if p.existing == p.updated then At(sys, call, Ended(Allowed(p.role, p.updated)))
    else
      At(sys, call, if answered then Confirming(p.role, p.updated, 0) else Ended(Refused(NotActivated)))
        .(policy := p.updated, written := sys.written + {p.updated})
  }

  function AfterConfirm(sys: System, call: CallId, seen: set<Role>): System
    requires call in sys.calls && sys.calls[call].Confirming?
  {
    var p := sys.calls[call];
    At(sys, call,
       if seen != {} && !Canonical(seen) then Ended(Refused(UnexpectedPolicy))
       else if seen == p.updated then Ended(Allowed(p.role, p.updated))
       else if p.tries + 1 == CONFIRMATIONS then Ended(Refused(Unconfirmed))
       else Confirming(p.role, p.updated, p.tries + 1))
  }

  ghost predicate Next(sys: System, step: Step, next: System) {
    match step
    case Begin(c, role) =>
      c !in sys.calls && next == At(sys, c, if ValidRole(role) then Asked(role) else Ended(Refused(InvalidRequest)))
    case ReadPolicy(c, seen) =>
      && c in sys.calls && sys.calls[c].Asked? && seen in sys.written
      && next == At(sys, c, if seen != {} && !Canonical(seen) then Ended(Refused(UnexpectedPolicy))
                            else PolicyRead(sys.calls[c].role, seen))
    case ReadState(c) =>
      && c in sys.calls && sys.calls[c].PolicyRead?
      && next == At(sys, c, Decide(sys.calls[c].role, sys.calls[c].existing, sys.item))
    case Persist(c, answered) =>
      c in sys.calls && sys.calls[c].Persisting? && next == AfterPersist(sys, c, answered)
    case Activate(c, answered) =>
      c in sys.calls && sys.calls[c].Saved? && next == AfterActivate(sys, c, answered)
    case Confirm(c, seen) =>
      && c in sys.calls && sys.calls[c].Confirming? && seen in sys.written
      && next == AfterConfirm(sys, c, seen)
    case Stop(c) =>
      c in sys.calls && !sys.calls[c].Ended? && next == At(sys, c, Ended(Refused(ServiceFailed)))
  }

  ghost predicate Initial(sys: System) {
    sys == System(None, {}, map[], [], {{}})
  }

  ghost predicate Run(states: seq<System>, steps: seq<Step>) {
    && |states| == |steps| + 1
    && Initial(states[0])
    && forall i :: 0 <= i < |steps| ==> Next(states[i], steps[i], states[i + 1])
  }

  // --- Invariants --------------------------------------------------------------------------

  /** The stored sets form a strictly growing chain, numbered by their versions. */
  ghost predicate Chain(sys: System) {
    && (forall i, j :: 0 <= i < j < |sys.stored| ==> sys.stored[i] < sys.stored[j])
    && (forall i :: 0 <= i < |sys.stored| ==> Canonical(sys.stored[i]))
    && (sys.item.None? <==> sys.stored == [])
    && (sys.item.Some? ==> sys.item.value == Item(sys.stored[|sys.stored| - 1], |sys.stored|))
  }

  ghost predicate Mirrors(sys: System) {
    && sys.policy in sys.written && {} in sys.written
    && forall w :: w in sys.written ==> w == {} || w in sys.stored
  }

  /** What a call in progress knows stays true of the chain. */
  ghost predicate CallHolds(sys: System, p: Phase) {
    match p
    case Asked(role) => ValidRole(role)
    case PolicyRead(role, existing) => ValidRole(role) && existing in sys.written
    case Persisting(role, existing, updated, version) =>
      && Canonical(updated) && role in updated
      && (version.None? || 1 <= version.value <= |sys.stored|)
      && (version.Some? ==> sys.stored[version.value - 1] < updated)
    case Saved(role, _, updated) => role in updated && updated in sys.stored
    case Confirming(role, updated, _) => role in updated && updated in sys.stored
    case Ended(result) =>
      if result.Allowed? then result.role in result.roles && result.roles in sys.stored
      else result.error !in {AbsentFromState, UnexpectedPolicy, InvalidState}
  }

  ghost predicate CallsHold(sys: System) {
    forall c :: c in sys.calls ==> CallHolds(sys, sys.calls[c])
  }

  ghost predicate Inv(sys: System) {
    Chain(sys) && Mirrors(sys) && CallsHold(sys)
  }

  // --- What a call decides, whatever it finds ---------------------------------------------------

  /** An unsound state, a policy with a role the state lacks and a set too large are refused, in that
      order; otherwise the call saves the state with its role, or goes on if the role is there. */
  lemma DecisionExactly(role: Role, existing: set<Role>, item: Option<Item>)
    ensures
      var phase := Decide(role, existing, item);
      var desired := if item.Some? then item.value.roles else {};
      var sound := item.Some? ==> Canonical(item.value.roles) && item.value.version >= 1;
      && (phase == Ended(Refused(InvalidState)) <==> !sound)
      && (phase == Ended(Refused(AbsentFromState)) <==> sound && exists r :: r in existing && r !in desired)
      && (phase == Ended(Refused(OverCapacity)) <==> sound && existing <= desired && !Fits(desired + {role}))
      && (sound && existing <= desired && Fits(desired + {role}) ==>
            if role in desired then phase == Saved(role, existing, desired)
            else phase == Persisting(role, existing, desired + {role}, Version(item)))
  {
    hide Canonical, Fits;
    var desired := if item.Some? then item.value.roles else {};
    assert role in desired ==> desired + {role} == desired;
  }

  /** Contents of the policy that no call wrote are refused at every read. */
  lemma ForeignPolicyRefused(sys: System, step: Step, next: System)
    requires Next(sys, step, next) && (step.ReadPolicy? || step.Confirm?) && step.seen != {} && !Canonical(step.seen)
    ensures step.call in next.calls && next.calls[step.call] == Ended(Refused(UnexpectedPolicy))
  {
    hide Canonical;
  }

  /** A request that is not answered has its effect all the same, and the call is told that it failed; a
      state that changed since it was read is not written. */
  lemma UnansweredRequests(sys: System, step: Step, next: System)
    requires Next(sys, step, next)
    ensures step.Persist? && Version(sys.item) != sys.calls[step.call].version ==>
              next.item == sys.item && next.stored == sys.stored && step.call in next.calls
              && next.calls[step.call] == Ended(Refused(ChangedConcurrently))
    ensures step.Persist? && Version(sys.item) == sys.calls[step.call].version ==>
              && next.item.Some? && next.item.value.roles == sys.calls[step.call].updated && step.call in next.calls
              && (next.calls[step.call] == Ended(Refused(NotSaved)) <==> !step.answered)
    ensures step.Activate? && sys.calls[step.call].existing != sys.calls[step.call].updated ==>
              && next.policy == sys.calls[step.call].updated && step.call in next.calls
              && (next.calls[step.call] == Ended(Refused(NotActivated)) <==> !step.answered)
    ensures step.Activate? && sys.calls[step.call].existing == sys.calls[step.call].updated ==>
              next.policy == sys.policy && step.call in next.calls && next.calls[step.call].Ended? && next.calls[step.call].result.Allowed?
  {
    hide Canonical, ValidRole, Fits, Decide;
  }

  /** Every stored set is contained in the current one. */
  lemma StoredWithinState(sys: System, s: set<Role>)
    requires Chain(sys) && (s == {} || s in sys.stored)
    ensures s <= StateRoles(sys)
  {
    hide Canonical;
    if s != {} {
      var i :| 0 <= i < |sys.stored| && sys.stored[i] == s;
      assert i < |sys.stored| - 1 ==> sys.stored[i] < sys.stored[|sys.stored| - 1];
    }
  }

  lemma PersistKept(sys: System, c: CallId, answered: bool)
    requires Inv(sys) && c in sys.calls && sys.calls[c].Persisting?
    ensures Inv(AfterPersist(sys, c, answered))
  {
    hide Canonical, ValidRole, Fits;
    var next, p := AfterPersist(sys, c, answered), sys.calls[c];
    assert CallHolds(sys, p);
    if Version(sys.item) == p.version {
      assert sys.stored != [] ==> sys.stored[|sys.stored| - 1] < p.updated;
      assert forall i :: 0 <= i < |sys.stored| ==> next.stored[i] == sys.stored[i];
      assert p.updated == next.stored[|sys.stored|];
      assert Chain(next) && Mirrors(next);
    }
  }

  lemma DecideHolds(sys: System, role: Role, existing: set<Role>)
    requires Inv(sys) && ValidRole(role) && existing in sys.written
    ensures CallHolds(sys, Decide(role, existing, sys.item))
  {
    hide ValidRole, Fits;
    StoredWithinState(sys, existing);
  }

  lemma MoveKept(sys: System, c: CallId, phase: Phase)
    requires Inv(sys) && CallHolds(sys, phase)
    ensures Inv(At(sys, c, phase))
  {
    hide Canonical, ValidRole;
  }

  lemma CallKnown(sys: System, c: CallId)
    requires Inv(sys) && c in sys.calls
    ensures CallHolds(sys, sys.calls[c])
  {
  }

  /** What a policy read returns is empty or canonical. */
  lemma SeenCanonical(sys: System, seen: set<Role>)
    requires Inv(sys) && seen in sys.written
    ensures seen == {} || Canonical(seen)
  {
    hide Canonical;
    if seen != {} {
      var i :| 0 <= i < |sys.stored| && sys.stored[i] == seen;
    }
  }

  /** A stored set may become the policy. */
  lemma WriteKept(sys: System, policy: set<Role>)
    requires Inv(sys) && policy in sys.stored
    ensures Inv(sys.(policy := policy, written := sys.written + {policy}))
  {
    var next := sys.(policy := policy, written := sys.written + {policy});
    hide Canonical, ValidRole;
    assert Chain(next) && Mirrors(next);
    hide Chain, Mirrors;
    forall c | c in next.calls
      ensures CallHolds(next, next.calls[c])
    {
      assert CallHolds(sys, sys.calls[c]);
    }
  }

  lemma ActivateKept(sys: System, c: CallId, answered: bool)
    requires Inv(sys) && c in sys.calls && sys.calls[c].Saved?
    ensures Inv(AfterActivate(sys, c, answered))
  {
    hide Inv, Canonical, ValidRole;
    CallKnown(sys, c);
    var p := sys.calls[c];
    if p.existing == p.updated {
      MoveKept(sys, c, Ended(Allowed(p.role, p.updated)));
    } else {
      var written, phase := sys.(policy := p.updated, written := sys.written + {p.updated}), AfterActivate(sys, c, answered).calls[c];
      WriteKept(sys, p.updated);
      assert AfterActivate(sys, c, answered) == At(written, c, phase);
      assert CallHolds(written, phase);
      hide CallHolds;
      MoveKept(written, c, phase);
    }
  }

  lemma StepKept(sys: System, step: Step, next: System)
    requires Inv(sys) && Next(sys, step, next)
    ensures Inv(next)
  {
    hide Inv, Canonical, ValidRole, Fits, Decide, AfterPersist, AfterActivate, At;
    match step
    case Persist(c, answered) => PersistKept(sys, c, answered);
    case Activate(c, answered) => ActivateKept(sys, c, answered);
    case ReadState(c) =>
      CallKnown(sys, c);
      DecideHolds(sys, sys.calls[c].role, sys.calls[c].existing);
      MoveKept(sys, c, Decide(sys.calls[c].role, sys.calls[c].existing, sys.item));
    case Confirm(c, seen) =>
      CallKnown(sys, c);
      SeenCanonical(sys, seen);
      ConfirmKept(sys, c, seen);
    case ReadPolicy(c, seen) =>
      CallKnown(sys, c);
      SeenCanonical(sys, seen);
      MoveKept(sys, c, PolicyRead(sys.calls[c].role, seen));
    case Begin(c, role) =>
      MoveKept(sys, c, if ValidRole(role) then Asked(role) else Ended(Refused(InvalidRequest)));
    case Stop(c) => MoveKept(sys, c, Ended(Refused(ServiceFailed)));
  }

  lemma ConfirmKept(sys: System, c: CallId, seen: set<Role>)
    requires Inv(sys) && c in sys.calls && sys.calls[c].Confirming? && CallHolds(sys, sys.calls[c]) && (seen == {} || Canonical(seen))
    ensures Inv(AfterConfirm(sys, c, seen))
  {
    hide Inv, Canonical, ValidRole, At;
    var p := sys.calls[c];
    MoveKept(sys, c, if seen == p.updated then Ended(Allowed(p.role, p.updated))
                     else if p.tries + 1 == CONFIRMATIONS then Ended(Refused(Unconfirmed))
                     else Confirming(p.role, p.updated, p.tries + 1));
  }

  lemma {:induction false} Reachable(states: seq<System>, steps: seq<Step>, i: nat)
    requires Run(states, steps) && i < |states|
    ensures Inv(states[i])
  {
    hide Next, Inv;
    if i == 0 {
      InitialInv(states[0]);
    } else {
      Reachable(states, steps, i - 1);
      StepKept(states[i - 1], steps[i - 1], states[i]);
    }
  }

  lemma InitialInv(sys: System)
    requires Initial(sys)
    ensures Inv(sys)
  {
  }

  // --- What holds in every run ---------------------------------------------------------------

  /** The stored sets grow strictly and version n is the n-th of them; every value the policy
      ever had is empty or one of them, so the policy never grants a role outside the state;
      and every stored set is within the size limit. */
  lemma StoredSetsFormChain(states: seq<System>, steps: seq<Step>, i: nat)
    requires Run(states, steps) && i < |states|
    ensures
      var sys := states[i];
      && (forall a, b :: 0 <= a < b < |sys.stored| ==> sys.stored[a] < sys.stored[b])
      && (sys.item.Some? ==> sys.stored != [] && sys.item.value == Item(sys.stored[|sys.stored| - 1], |sys.stored|))
      && (forall w :: w in sys.written ==> w == {} || w in sys.stored)
      && sys.policy <= StateRoles(sys)
      && (forall s :: s in sys.stored ==> |Document(s)| <= MAX_POLICY_CHARACTERS)
  {
    hide Next, Document, ValidRole;
    Reachable(states, steps, i);
    StoredWithinState(states[i], states[i].policy);
  }

  /** Because the policy is read before the state, a call never finds a role in the policy that
      the state lacks, however old the policy it saw; nor does it meet contents it did not write. */
  lemma NeverAheadOfState(states: seq<System>, steps: seq<Step>, i: nat, c: CallId)
    requires Run(states, steps) && i < |states| && c in states[i].calls
    ensures states[i].calls[c] !in {Ended(Refused(AbsentFromState)), Ended(Refused(UnexpectedPolicy)), Ended(Refused(InvalidState))}
  {
    hide Next, Chain, Mirrors;
    Reachable(states, steps, i);
    assert CallHolds(states[i], states[i].calls[c]);
  }

  lemma StepGrows(sys: System, step: Step, next: System)
    requires Next(sys, step, next)
    ensures sys.stored <= next.stored
    ensures forall c :: c in sys.calls && sys.calls[c].Ended? ==> c in next.calls && next.calls[c] == sys.calls[c]
  {
    hide Canonical, ValidRole, Fits, Decide;
  }

  lemma {:induction false} RunGrows(states: seq<System>, steps: seq<Step>, i: nat, j: nat)
    requires Run(states, steps) && i <= j < |states|
    ensures states[i].stored <= states[j].stored
    ensures forall c :: c in states[i].calls && states[i].calls[c].Ended? ==>
              c in states[j].calls && states[j].calls[c] == states[i].calls[c]
    decreases j
  {
    hide Next;
    if i < j {
      RunGrows(states, steps, i, j - 1);
      StepGrows(states[j - 1], steps[j - 1], states[j]);
    }
  }

  /** No role is ever lost from the state: what it held, and every role a call was told is
      allowed, it still holds in every later state. */
  lemma RolesAreNeverLost(states: seq<System>, steps: seq<Step>, i: nat, j: nat)
    requires Run(states, steps) && i <= j < |states|
    ensures StateRoles(states[i]) <= StateRoles(states[j])
    ensures forall c :: c in states[i].calls && states[i].calls[c].Ended? && states[i].calls[c].result.Allowed? ==>
              states[i].calls[c].result.role in StateRoles(states[j])
  {
    hide Next, Canonical;
    Reachable(states, steps, i);
    Reachable(states, steps, j);
    RunGrows(states, steps, i, j);
    var a, b := states[i], states[j];
    StoredWithinState(b, StateRoles(a));
    forall c | c in a.calls && a.calls[c].Ended? && a.calls[c].result.Allowed?
      ensures a.calls[c].result.role in StateRoles(b)
    {
      assert CallHolds(a, a.calls[c]);
      StoredWithinState(b, a.calls[c].result.roles);
    }
  }

  function Confirmations(steps: seq<Step>, c: CallId): nat {
    if steps == [] then 0
    else
      var step := steps[|steps| - 1];
      Confirmations(steps[..|steps| - 1], c) + if step.Confirm? && step.call == c then 1 else 0
  }

  /** What the steps so far say of a call: the role it was begun with, the policy it read first, how
      often it asked for a confirmation, and what it saw if it was told that its role is allowed. */
  ghost predicate Traced(steps: seq<Step>, c: CallId, p: Phase) {
    var confirmations := Confirmations(steps, c);
    match p
    case Asked(role) => Begin(c, role) in steps && confirmations == 0
    case PolicyRead(role, existing) => Begin(c, role) in steps && ReadPolicy(c, existing) in steps && confirmations == 0
    case Persisting(role, existing, _, _) => Begin(c, role) in steps && ReadPolicy(c, existing) in steps && confirmations == 0
    case Saved(role, existing, _) => Begin(c, role) in steps && ReadPolicy(c, existing) in steps && confirmations == 0
    case Confirming(role, _, tries) => Begin(c, role) in steps && tries == confirmations < CONFIRMATIONS
    case Ended(result) =>
      && confirmations <= CONFIRMATIONS && (result == Refused(Unconfirmed) ==> confirmations == 7)
      && (result.Allowed? ==>
            Begin(c, result.role) in steps && (ReadPolicy(c, result.roles) in steps || Confirm(c, result.roles) in steps))
  }

  ghost predicate AllTraced(sys: System, steps: seq<Step>) {
    && (forall c :: c in sys.calls ==> Traced(steps, c, sys.calls[c]))
    && (forall c :: c !in sys.calls ==> Confirmations(steps, c) == 0)
  }

  lemma OthersTraced(sys: System, steps: seq<Step>, step: Step, c: CallId)
    requires AllTraced(sys, steps) && c != step.call
    ensures Confirmations(steps + [step], c) == Confirmations(steps, c)
    ensures c in sys.calls ==> Traced(steps + [step], c, sys.calls[c])
  {
    assert (steps + [step])[..|steps|] == steps;
    assert forall t :: t in steps ==> t in steps + [step];
  }

  lemma OneCallMoves(sys: System, step: Step, next: System)
    requires Next(sys, step, next)
    ensures step.call in next.calls && next.calls == sys.calls[step.call := next.calls[step.call]]
  {
    hide Canonical, ValidRole, Fits, Decide;
  }

  lemma OneMoreStep(steps: seq<Step>, step: Step)
    ensures step in steps + [step] && forall t :: t in steps ==> t in steps + [step]
    ensures Confirmations(steps + [step], step.call) == Confirmations(steps, step.call) + if step.Confirm? then 1 else 0
  {
    assert (steps + [step])[..|steps|] == steps;
  }

  lemma ConfirmTraced(sys: System, steps: seq<Step>, step: Step, next: System)
    requires step.call in sys.calls && Traced(steps, step.call, sys.calls[step.call])
    requires Next(sys, step, next) && step.Confirm? && step.call in next.calls
    ensures Traced(steps + [step], step.call, next.calls[step.call])
  {
    OneMoreStep(steps, step);
    hide Canonical, ValidRole, Fits, Decide, Confirmations;
  }

  lemma CallTraced(sys: System, steps: seq<Step>, step: Step, next: System)
    requires AllTraced(sys, steps) && Next(sys, step, next) && step.call in next.calls
    ensures Traced(steps + [step], step.call, next.calls[step.call])
  {
    hide Canonical, ValidRole, Fits, Confirmations;
    if step.Confirm? {
      ConfirmTraced(sys, steps, step, next);
    } else {
      OneMoreStep(steps, step);
      var c := step.call;
      assert c in sys.calls ==> Traced(steps, c, sys.calls[c]);
      hide AllTraced;
    }
  }

  lemma TracedStep(sys: System, steps: seq<Step>, step: Step, next: System)
    requires AllTraced(sys, steps) && Next(sys, step, next)
    ensures AllTraced(next, steps + [step])
  {
    OneCallMoves(sys, step, next);
    CallTraced(sys, steps, step, next);
    hide Next, Traced;
    forall d | d != step.call
      ensures Confirmations(steps + [step], d) == Confirmations(steps, d)
      ensures d in sys.calls ==> Traced(steps + [step], d, sys.calls[d])
    {
      OthersTraced(sys, steps, step, d);
    }
  }

  lemma {:induction false} RunTraced(states: seq<System>, steps: seq<Step>, i: nat)
    requires Run(states, steps) && i < |states|
    ensures AllTraced(states[i], steps[..i])
  {
    hide Next, Traced;
    if i > 0 {
      RunTraced(states, steps, i - 1);
      TracedStep(states[i - 1], steps[..i - 1], steps[i - 1], states[i]);
      assert steps[..i] == steps[..i - 1] + [steps[i - 1]];
    }
  }

  /** A call is told that its role is allowed only after a read showed it the policy with exactly the
      set it saved, role included: its first read or one of at most seven confirmations. It gives up
      unconfirmed only after all seven. */
  lemma AllowedWasSeen(states: seq<System>, steps: seq<Step>, i: nat, c: CallId)
    requires Run(states, steps) && i < |states| && c in states[i].calls && states[i].calls[c].Ended?
    ensures Confirmations(steps[..i], c) <= 7
    ensures
      var result := states[i].calls[c].result;
      if result.Allowed? then
        && Begin(c, result.role) in steps[..i] && result.role in result.roles && result.roles in states[i].stored
        && (ReadPolicy(c, result.roles) in steps[..i] || Confirm(c, result.roles) in steps[..i])
      else result.error == Unconfirmed ==> Confirmations(steps[..i], c) == 7
  {
    hide Next, Canonical;
    RunTraced(states, steps, i);
    Reachable(states, steps, i);
    assert CallHolds(states[i], states[i].calls[c]);
    hide Inv, Confirmations;
  }

  /** The policy is written only by a call whose first read showed another set than the one it saved,
      and becomes that set. */
  lemma OnlyActivationsWrite(sys: System, step: Step, next: System)
    requires Inv(sys) && Next(sys, step, next)
    ensures next.policy != sys.policy || next.written != sys.written ==>
              step.Activate? && sys.calls[step.call].existing != sys.calls[step.call].updated == next.policy
    ensures next.item != sys.item ==>
              && step.Persist? && Version(sys.item) == sys.calls[step.call].version && next.item.Some?
              && next.item.value.roles == sys.calls[step.call].updated && next.item.value.version == |sys.stored| + 1
  {
    hide Canonical, ValidRole, Fits, Decide;
  }

  // --- One call alone ------------------------------------------------------------------------

  /** The step belongs to the call and reads the policy as it is now. */
  ghost predicate Alone(sys: System, c: CallId, step: Step) {
    step.call == c && (step.ReadPolicy? || step.Confirm? ==> step.seen == sys.policy)
  }

  /** What a call that runs alone knows of both stores. */
  ghost predicate AloneHolds(sys: System, p: Phase) {
    match p
    case Asked(_) => true
    case PolicyRead(_, existing) => existing == sys.policy
    case Persisting(_, existing, updated, version) => existing == sys.policy && version == Version(sys.item)
    case Saved(_, existing, updated) => existing == sys.policy && updated == StateRoles(sys)
    case Confirming(_, updated, _) => updated == sys.policy == StateRoles(sys)
    case Ended(result) => result.Allowed? ==> sys.policy == StateRoles(sys) && result.role in sys.policy
  }

  lemma AloneStep(sys: System, c: CallId, step: Step, next: System)
    requires Inv(sys) && Next(sys, step, next) && Alone(sys, c, step)
    requires c in sys.calls ==> AloneHolds(sys, sys.calls[c])
    ensures c in next.calls && AloneHolds(next, next.calls[c])
  {
    hide Canonical, ValidRole, Fits, Chain, Mirrors;
    if c in sys.calls {
      assert CallHolds(sys, sys.calls[c]);
    }
  }

  lemma {:induction false} AloneRun(states: seq<System>, steps: seq<Step>, i: nat, j: nat, c: CallId)
    requires Run(states, steps) && i < j < |states| && c !in states[i].calls
    requires forall k :: i <= k < j ==> Alone(states[k], c, steps[k])
    ensures c in states[j].calls && AloneHolds(states[j], states[j].calls[c])
    decreases j
  {
    hide Next, Inv, AloneHolds;
    if i < j - 1 {
      AloneRun(states, steps, i, j - 1, c);
    }
    Reachable(states, steps, j - 1);
    AloneStep(states[j - 1], c, steps[j - 1], states[j]);
  }

  /** A call made alone with up-to-date reads and reported as successful leaves the policy
      equal to the state, with its role in both, whatever earlier calls left behind: also
      when one of them saved the state and never wrote the policy. */
  lemma SerializedCallSynchronizes(states: seq<System>, steps: seq<Step>, i: nat, j: nat, c: CallId)
    requires Run(states, steps) && i < j < |states| && c !in states[i].calls
    requires forall k :: i <= k < j ==> Alone(states[k], c, steps[k])
    requires c in states[j].calls && states[j].calls[c].Ended? && states[j].calls[c].result.Allowed?
    ensures states[j].policy == StateRoles(states[j])
    ensures states[j].calls[c].result.role in states[j].policy
  {
    hide Next;
    AloneRun(states, steps, i, j, c);
  }

  // --- Interleaved calls may take a role back out of the policy --------------------------------

  /** A policy write takes an allowed role away exactly when it writes a strictly older set than
      the policy holds. */
  lemma WritesRevertExactlyWhenOlder(sys: System, c: CallId, answered: bool)
    requires Inv(sys) && c in sys.calls && sys.calls[c].Saved?
    requires sys.calls[c].existing != sys.calls[c].updated
    ensures !(sys.policy <= AfterActivate(sys, c, answered).policy) <==> sys.calls[c].updated < sys.policy
  {
    hide Canonical;
    var u := sys.calls[c].updated;
    assert CallHolds(sys, sys.calls[c]);
    var i :| 0 <= i < |sys.stored| && sys.stored[i] == u;
    if sys.policy != {} {
      var j :| 0 <= j < |sys.stored| && sys.stored[j] == sys.policy;
      if i < j {
        assert u < sys.policy;
      } else {
        assert sys.policy <= u;
      }
    }
  }

  /** Any six valid roles fit: a role has at most 610 characters, two quotes and a comma. */
  lemma {:induction false} QuotedLength(roles: seq<Role>)
    requires forall i :: 0 <= i < |roles| ==> |roles[i]| <= 610
    ensures |Quoted(roles)| <= 613 * |roles|
  {
    if roles != [] {
      QuotedLength(roles[1..]);
    }
  }

  lemma SixRolesFit(roles: set<Role>)
    requires |roles| <= 6 && forall r :: r in roles ==> ValidRole(r)
    ensures Fits(roles)
  {
    assert forall i :: 0 <= i < |Sorted(roles)| ==> Sorted(roles)[i] in roles;
    QuotedLength(Sorted(roles));
  }

  const OLDER: Role := PARTITION + "111111111111" + ROLE_PATH + "a"
  const NEWER: Role := PARTITION + "111111111111" + ROLE_PATH + "b"

  lemma ExampleRole(name: string)
    requires |name| == 1 && 'a' <= name[0] <= 'z'
    ensures ValidRole(PARTITION + "111111111111" + ROLE_PATH + name)
  {
    var v := PARTITION + "111111111111" + ROLE_PATH + name;
    assert v[46..] == name && name[1..] == "";
    assert FirstSegment(name) == 1 && RolePath(name) && LastSegment(name) == 1;
    assert v[..13] == PARTITION && v[25..46] == ROLE_PATH;
  }

  lemma ExampleRoles()
    ensures ValidRole(OLDER) && ValidRole(NEWER) && OLDER != NEWER
    ensures Canonical({OLDER}) && Canonical({OLDER, NEWER}) && Fits({OLDER} + {NEWER})
  {
    ExampleRole("a");
    ExampleRole("b");
    assert OLDER[46] != NEWER[46];
    hide ValidRole, Fits;
    assert |{OLDER}| == 1 && |{OLDER, NEWER}| == 2 && {OLDER} + {NEWER} == {OLDER, NEWER};
    SixRolesFit({OLDER});
    SixRolesFit({OLDER, NEWER});
  }

  ghost predicate Leads(sys: System) {
    exists states, steps :: Run(states, steps) && states[|states| - 1] == sys
  }

  lemma Start(sys: System)
    requires Initial(sys)
    ensures Leads(sys)
  {
    assert Run([sys], []);
  }

  lemma Continue(sys: System, step: Step, next: System)
    requires Leads(sys) && Next(sys, step, next)
    ensures Leads(next)
  {
    var states, steps :| Run(states, steps) && states[|states| - 1] == sys;
    hide Next;
    assert Run(states + [next], steps + [step]);
  }

  /** A call that reads the policy while it is empty and saves its set at the state it read. */
  lemma ReadAndSave(sys: System, c: CallId, role: Role)
    requires Leads(sys) && c !in sys.calls && {} in sys.written
    requires ValidRole(role) && (sys.item.Some? ==> Canonical(sys.item.value.roles) && sys.item.value.version >= 1)
    requires role !in StateRoles(sys) && Fits(StateRoles(sys) + {role})
    ensures
      var roles, version := StateRoles(sys) + {role}, (if sys.item.Some? then sys.item.value.version else 0) + 1;
      Leads(At(sys, c, Saved(role, {}, roles)).(item := Some(Item(roles, version)), stored := sys.stored + [roles]))
  {
    hide Leads, ValidRole, Fits, Canonical;
    var roles := StateRoles(sys) + {role};
    var s1 := At(sys, c, Asked(role));
    var s2 := At(sys, c, PolicyRead(role, {}));
    var s3 := At(sys, c, Persisting(role, {}, roles, Version(sys.item)));
    var s4 := AfterPersist(s3, c, true);
    assert At(s1, c, PolicyRead(role, {})) == s2 && At(s2, c, s3.calls[c]) == s3;
    Continue(sys, Begin(c, role), s1);
    Continue(s1, ReadPolicy(c, {}), s2);
    Continue(s2, ReadState(c), s3);
    Continue(s3, Persist(c, true), s4);
    assert At(s3, c, Saved(role, {}, roles)).calls == At(sys, c, Saved(role, {}, roles)).calls;
  }

  /** A call that saved its set first but wrote the policy last takes back a role that another
      call was already told is allowed. */
  lemma PolicyCanRegress() returns (sys: System)
    ensures Leads(sys)
    ensures 1 in sys.calls && sys.calls[1] == Ended(Allowed(NEWER, {OLDER, NEWER}))
    ensures NEWER in StateRoles(sys) && NEWER !in sys.policy
  {
    ExampleRoles();
    hide ValidRole, Fits, Leads;
    var a, b := {OLDER}, {OLDER, NEWER};
    var s0 := System(None, {}, map[], [], {{}});
    Start(s0);
    assert {} + {OLDER} == a && a + {NEWER} == b && NEWER in b && NEWER !in a;
    ReadAndSave(s0, 0, OLDER);
    var s1 := At(s0, 0, Saved(OLDER, {}, a)).(item := Some(Item(a, 1)), stored := [] + [a]);
    ReadAndSave(s1, 1, NEWER);
    hide Canonical, OLDER, NEWER;
    var s2 := At(s1, 1, Saved(NEWER, {}, b)).(item := Some(Item(b, 2)), stored := [] + [a] + [b]);
    sys := Overtake(s2, OLDER, NEWER, a, b);
  }

  /** The newer call ends, then the older one writes its policy. */
  lemma Overtake(s0: System, older: Role, newer: Role, a: set<Role>, b: set<Role>) returns (sys: System)
    requires Leads(s0) && a != {} && b != {} && Canonical(b)
    requires 0 in s0.calls && s0.calls[0] == Saved(older, {}, a) && 1 in s0.calls && s0.calls[1] == Saved(newer, {}, b)
    ensures Leads(sys) && sys.item == s0.item && sys.policy == a
    ensures 1 in sys.calls && sys.calls[1] == Ended(Allowed(newer, b))
  {
    hide Leads, Canonical;
    var s1 := AfterActivate(s0, 1, true);
    Continue(s0, Activate(1, true), s1);
    var s2 := AfterConfirm(s1, 1, b);
    Continue(s1, Confirm(1, b), s2);
    sys := AfterActivate(s2, 0, true);
    Continue(s2, Activate(0, true), sys);
  }

  // --- The call as it runs ---------------------------------------------------------------------

  /** Where a call may be cut: the save or the policy write fails, with or without effect. */
  datatype Fault = NoFault | SaveFails | SaveUnanswered | WriteFails | WriteUnanswered

  class Stores {
    var item: Option<Item>
    var policy: set<Role>

    /** Both stores hold only what the broker writes, and the policy no more than the state. */
    ghost predicate Consistent()
      reads this
    {
      && (item.Some? ==> Canonical(item.value.roles) && item.value.version >= 1)
      && (policy == {} || Canonical(policy)) && policy <= Roles()
    }

    function Roles(): set<Role>
      reads this
    {
      if item.Some? then item.value.roles else {}
    }

    constructor ()
      ensures Consistent() && item == None && policy == {}
    {
      item, policy := None, {};
    }

    /** The conditional save: refused, with nothing written, unless the version is still the one read. */
    method PersistState(roles: set<Role>, previous: Option<nat>) returns (saved: bool)
      modifies this`item
      ensures saved <==> Version(old(item)) == previous
      ensures item == if saved then Some(Item(roles, (if previous.Some? then previous.value else 0) + 1)) else old(item)
    {
      saved := Version(item) == previous;
      if saved {
        item := Some(Item(roles, (if previous.Some? then previous.value else 0) + 1));
      }
    }

    /** Why a call stops before it writes anything, in the order of the checks. */
    function Refusal(role: Role, existing: set<Role>): Option<Error>
      reads this
    {
      if !ValidRole(role) then Some(InvalidRequest)
      else if existing != {} && !Canonical(existing) then Some(UnexpectedPolicy)
      else if item.Some? && !(Canonical(item.value.roles) && item.value.version >= 1) then Some(InvalidState)
      else if !(existing <= Roles()) then Some(AbsentFromState)
      else if !Fits(Roles() + {role}) then Some(OverCapacity)
      else None
    }

    /** One call with no other in between. `existing` is what the first policy read returned and
        `confirm(i)` what confirmation read i returns; both may be out of date. */
    method Provision(role: Role, existing: set<Role>, fault: Fault, confirm: nat -> set<Role>) returns (result: Result)
      modifies this
      ensures old(Consistent()) ==> Consistent()
      // Refused before writing: exactly the failed checks, and nothing is written.
      ensures old(Refusal(role, existing)).Some? ==>
                result == Refused(old(Refusal(role, existing)).value) && item == old(item) && policy == old(policy)
      // The checks, in their order: the role, the policy as it was read, the state, both together, the size.
      ensures
        var clean := existing == {} || Canonical(existing);
        var sound := old(item).Some? ==> Canonical(old(item).value.roles) && old(item).value.version >= 1;
        && (result == Refused(InvalidRequest) <==> !ValidRole(role))
        && (ValidRole(role) && !clean ==> result == Refused(UnexpectedPolicy))
        && (result == Refused(InvalidState) <==> ValidRole(role) && clean && !sound)
        && (result == Refused(AbsentFromState) <==> ValidRole(role) && clean && sound && !(existing <= old(Roles())))
        && (result == Refused(OverCapacity) <==>
              ValidRole(role) && clean && sound && existing <= old(Roles()) && !Fits(old(Roles()) + {role}))
      // A stale read of a policy that the broker wrote is never taken for a foreign role.
      ensures old(Consistent()) && existing <= old(Roles()) && (existing == {} || Canonical(existing)) ==>
                result.Allowed? || result.error !in {InvalidState, AbsentFromState}
      // The state gains the role in one new version, or stays.
      ensures item == old(item) ||
              (role !in old(Roles()) && item == Some(Item(old(Roles()) + {role}, (if old(item).Some? then old(item).value.version else 0) + 1)))
      ensures policy == old(policy) || policy == Roles()
      ensures result.Allowed? ==> result == Allowed(role, Roles()) && role in Roles()
      ensures result.Allowed? && existing == old(policy) ==> policy == Roles()
      // Past the checks and without faults a call succeeds exactly when the policy it read was
      // complete, or a confirmation shows the new policy before any read of foreign contents.
      ensures old(Refusal(role, existing)).None? && fault.NoFault? ==>
                && Roles() == old(Roles()) + {role}
                && (result.Allowed? <==>
                      || existing == Roles()
                      || exists i: nat :: i < CONFIRMATIONS && confirm(i) == Roles() && Canonical(confirm(i)) &&
                           forall k: nat :: k < i ==> confirm(k) == {} || Canonical(confirm(k)))
      // From the policy write on, the state holds the role whatever the call reports.
      ensures result.Refused? && result.error in {NotActivated, Unconfirmed} ==> role in Roles()
    {
      hide ValidRole, Fits;
      var refusal := Refusal(role, existing);
      if refusal.Some? {
        return Refused(refusal.value);
      }
      var desired, version := Roles(), Version(item);
      var updated := desired + {role};
      if updated != desired {
        if fault.SaveFails? {
          return Refused(NotSaved);
        }
        var saved := PersistState(updated, version);
        if fault.SaveUnanswered? {
          return Refused(NotSaved);
        }
      }
      assert Roles() == updated && Canonical(updated);
      if existing == updated {
        return Allowed(role, updated);
      }
      if fault.WriteFails? {
        return Refused(NotActivated);
      }
      policy := updated;
      if fault.WriteUnanswered? {
        return Refused(NotActivated);
      }
      for i := 0 to CONFIRMATIONS
        invariant forall k: nat :: k < i ==> confirm(k) != updated && (confirm(k) == {} || Canonical(confirm(k)))
      {
        if confirm(i) != {} && !Canonical(confirm(i)) {
          return Refused(UnexpectedPolicy);
        }
        if confirm(i) == updated {
          return Allowed(role, updated);
        }
      }
      return Refused(Unconfirmed);
    }
  }
}
