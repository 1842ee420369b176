/** The durable capability calls (control_plane/capability_calls.py): asking for the same call
    again yields the record that exists, and a call always belongs to its agent run. */
module CapabilityCalls {
  import opened Wrappers
  import opened Text

  /** The trusted identity of a call, which its payload holds. */
  datatype Identity = Identity(
    executionKey: string, capability: string, actor: string, scope: string, trace: string,
    run: string, workflow: string, toolCall: string,
    agentRef: string, skillRef: string, policyRef: string, inputHash: string)

  datatype Spec = Spec(callId: string, identity: Identity)

  /** What `CapabilityCallSpec` insists on when it is built. */
  predicate Complete(s: Spec) {
    var i := s.identity;
    && Strip(s.callId) != "" && Strip(i.executionKey) != "" && Strip(i.capability) != "" && Strip(i.actor) != ""
    && Strip(i.scope) != "" && Strip(i.trace) != "" && Strip(i.run) != "" && Strip(i.workflow) != ""
    && Strip(i.toolCall) != ""
  }

  datatype CallState = Requested | Running | WaitingApproval | Succeeded | Failed | Rejected | Cancelled

  predicate Allowed(from: CallState, to: CallState) {
    match from
    case Requested => to.Running? || to.WaitingApproval? || to.Rejected? || to.Cancelled?
    case Running => to.WaitingApproval? || to.Succeeded? || to.Failed? || to.Cancelled?
    case WaitingApproval => to.Requested? || to.Rejected? || to.Cancelled?
    case _ => false
  }

  /** What a finished call records beside its identity. */
  datatype Outcome = Outcome(result: string, toolContent: string, duration: nat, errorCode: string)

  datatype Call = Call(scope: string, identity: Identity, state: CallState, version: nat, outcome: Option<Outcome>)

  datatype Run = Run(scope: string, actor: string, workflow: string)

  datatype Audit = Created(callId: string) | Moved(callId: string, to: CallState, version: nat)

  datatype Tables = Tables(
    calls: map<string, Call>, runs: map<string, Run>, commands: map<string, string>, audit: seq<Audit>)

  const EMPTY := Tables(map[], map[], map[], [])

  datatype Error = Conflict | Missing | StorageFailed | CommandReused | VersionConflict | InvalidTransition

  // ---- what the tables keep ----

  /** `_assert_run`. */
  predicate RunAgrees(t: Tables, i: Identity) {
    i.run in t.runs && t.runs[i.run] == Run(i.scope, i.actor, i.workflow)
  }

  ghost predicate CallOk(t: Tables, id: string)
    requires id in t.calls
  {
    var c := t.calls[id];
    Complete(Spec(id, c.identity)) && c.scope == c.identity.scope && RunAgrees(t, c.identity)
  }

  /** The unique index on execution keys. */
  ghost predicate KeysUnique(t: Tables) {
    forall a <- t.calls, b <- t.calls :: t.calls[a].identity.executionKey == t.calls[b].identity.executionKey ==> a == b
  }

  ghost predicate Consistent(t: Tables) {
    KeysUnique(t) && forall id <- t.calls :: CallOk(t, id)
  }

  predicate HasKey(t: Tables, id: string, key: string) {
    id in t.calls && t.calls[id].identity.executionKey == key
  }

  /** The call a spec meets: one with its execution key, or else one with its call id. */
  ghost predicate Meets(t: Tables, s: Spec, id: string) {
    || HasKey(t, id, s.identity.executionKey)
    || (id == s.callId && id in t.calls && forall other <- t.calls :: !HasKey(t, other, s.identity.executionKey))
  }

  /** `_assert_identity`. */
  predicate SameIdentity(c: Call, i: Identity) { c.scope == i.scope && c.identity == i }

  function NewCall(s: Spec): Call { Call(s.identity.scope, s.identity, Requested, 0, None) }

  ghost predicate Creates(t: Tables, s: Spec, t': Tables) {
    && s.callId !in t.calls && (forall id <- t.calls :: !HasKey(t, id, s.identity.executionKey))
    && RunAgrees(t, s.identity)
    && t' == t.(calls := t.calls[s.callId := NewCall(s)], audit := t.audit + [Created(s.callId)])
  }

  /** A spec that is refused: the call it meets is another one, or its run does not agree. */
  ghost predicate Conflicts(t: Tables, s: Spec) {
    || (exists id :: Meets(t, s, id) && !SameIdentity(t.calls[id], s.identity))
    || ((forall id :: !Meets(t, s, id)) && !RunAgrees(t, s.identity))
  }

  ghost predicate Moves(t: Tables, id: string, to: CallState, command: string, outcome: Option<Outcome>, t': Tables) {
    && id in t.calls && command !in t.commands && Allowed(t.calls[id].state, to)
    && t' == MovedTables(t, id, to, command, outcome)
  }

  function MovedTables(t: Tables, id: string, to: CallState, command: string, outcome: Option<Outcome>): Tables
    requires id in t.calls
  {
    t.(calls := t.calls[id := MovedCall(t.calls[id], to, outcome)],
       commands := t.commands[command := id],
       audit := t.audit + [Moved(id, to, t.calls[id].version + 1)])
  }

  function MovedCall(c: Call, to: CallState, outcome: Option<Outcome>): Call {
    c.(state := to, version := c.version + 1, outcome := if outcome.Some? then outcome else c.outcome)
  }

  /** The row of a new call. */
  ghost predicate CallTells(c: Call, i: Identity) {
    c.identity == i && c.scope == i.scope && c.state == Requested && c.version == 0 && c.outcome == None
  }

  /** The row of a moved call: the new state, the next version, and the outcome given, if any. */
  ghost predicate CallMoved(was: Call, now: Call, to: CallState, outcome: Option<Outcome>) {
    && now.identity == was.identity && now.scope == was.scope
    && now.state == to && now.version == was.version + 1
    && now.outcome == if outcome == None then was.outcome else outcome
  }

  /** From where each state is reached. */
  ghost predicate ReachedFrom(to: CallState, from: CallState) {
    match to
    case Requested => from == WaitingApproval
    case Running => from == Requested
    case WaitingApproval => from in [Requested, Running]
    case Succeeded => from == Running
    case Failed => from == Running
    case Rejected => from in [Requested, WaitingApproval]
    case Cancelled => from in [Requested, Running, WaitingApproval]
  }

  /** A spec is accepted if the call with its key, or else the one with its id, is the very same, or if
      there is neither and its run has its scope, actor and workflow. */
  ghost predicate Accepts(t: Tables, s: Spec) {
    var i := s.identity;
    if exists id <- t.calls :: t.calls[id].identity.executionKey == i.executionKey then
      exists id <- t.calls :: t.calls[id].identity == i && t.calls[id].scope == i.scope
    else if s.callId in t.calls then t.calls[s.callId].identity == i && t.calls[s.callId].scope == i.scope
    else
      i.run in t.runs && t.runs[i.run].scope == i.scope && t.runs[i.run].actor == i.actor
      && t.runs[i.run].workflow == i.workflow
  }

  /** A call has its key or its id. */
  ghost predicate Known(t: Tables, s: Spec) {
    s.callId in t.calls || exists id <- t.calls :: t.calls[id].identity.executionKey == s.identity.executionKey
  }

  lemma AcceptsIff(t: Tables, s: Spec)
    requires KeysUnique(t)
    ensures Accepts(t, s) <==> !Conflicts(t, s)
  {
    var i := s.identity;
    if id :| id in t.calls && t.calls[id].identity.executionKey == i.executionKey {
      assert Meets(t, s, id) && HasKey(t, id, i.executionKey);
      assert forall x :: Meets(t, s, x) ==> x == id;
    } else if s.callId in t.calls {
      assert Meets(t, s, s.callId);
      assert forall x :: Meets(t, s, x) ==> x == s.callId;
    } else {
      assert forall x :: !Meets(t, s, x);
    }
  }

  lemma AllowedIff(from: CallState, to: CallState)
    ensures Allowed(from, to) <==> ReachedFrom(to, from)
  {
  }

  /** All a move does to the tables. */
  ghost predicate OnlyMoves(t: Tables, t': Tables, id: string, to: CallState, command: string,
                            outcome: Option<Outcome>)
  {
    && id in t.calls && id in t'.calls && CallMoved(t.calls[id], t'.calls[id], to, outcome)
    && t' == t.(calls := t.calls[id := t'.calls[id]], commands := t.commands[command := id],
                audit := t.audit + [Moved(id, to, t'.calls[id].version)])
  }

  lemma MovedTells(t: Tables, id: string, to: CallState, command: string, outcome: Option<Outcome>)
    requires id in t.calls
    ensures var t' := MovedTables(t, id, to, command, outcome);
            id in t'.calls && OnlyMoves(t, t', id, to, command, outcome)
  {
  }

  // ---- the store ----

  class CapabilityCallStore {
    var work: Tables
    var committed: Tables

    constructor ()
      ensures Valid() && work == EMPTY
    {
      work, committed := EMPTY, EMPTY;
    }

    /** Between calls no transaction is open. */
    ghost predicate Valid()
      reads this
    {
      work == committed && Consistent(work)
    }

    method FindByKey(key: string) returns (found: Option<string>)
      ensures found.Some? ==> HasKey(work, found.value, key)
      ensures found.None? ==> forall id <- work.calls :: !HasKey(work, id, key)
    {
      var rows := set id | id in work.calls && HasKey(work, id, key);
      if rows == {} {
        assert forall id <- work.calls :: HasKey(work, id, key) ==> id in rows;
        return None;
      }
      var id :| id in rows;
      return Some(id);
    }

    /** `failAt` numbers the statement at which the database fails: begin, look-up, insert,
        audit, commit; past them nothing fails. */
    method CreateOrGet(s: Spec, failAt: nat) returns (r: Result<(string, bool), Error>)
      requires Valid() && Complete(s)
      modifies this
      ensures Valid()
      ensures r.Ok? && !r.value.1 ==>
        work == old(work) && Meets(work, s, r.value.0) && SameIdentity(work.calls[r.value.0], s.identity)
      ensures r.Ok? && r.value.1 ==> r.value.0 == s.callId && Creates(old(work), s, work)
      ensures r.Ok? && r.value.1 ==>
        && s.callId in work.calls && CallTells(work.calls[s.callId], s.identity)
        && work == old(work).(calls := old(work).calls[s.callId := work.calls[s.callId]],
                              audit := old(work).audit + [Created(s.callId)])
      ensures r.Ok? <==> Accepts(old(work), s) && (failAt > 4 || (failAt in [2, 3] && Known(old(work), s)))
      ensures r.Err? ==> r.error == if failAt > 1 && !Accepts(old(work), s) then Conflict else StorageFailed
      ensures r.Err? ==> work == old(work)
      ensures failAt > 4 ==> (r.Err? <==> Conflicts(old(work), s))
    {
      AcceptsIff(work, s);
      if failAt == 0 { Rollback(); return Err(StorageFailed); }
      if failAt == 1 { Rollback(); return Err(StorageFailed); }
      var row := FindByKey(s.identity.executionKey);
      if row.None? && s.callId in work.calls { row := Some(s.callId); }
      if row.Some? {
        assert Meets(work, s, row.value);
        if !SameIdentity(work.calls[row.value], s.identity) { Rollback(); return Err(Conflict); }
        if failAt == 4 { Rollback(); return Err(StorageFailed); }
        committed := work;
        return Ok((row.value, false));
      }
      assert forall id :: !Meets(work, s, id);
      if !RunAgrees(work, s.identity) { Rollback(); return Err(Conflict); }
      if failAt == 2 { Rollback(); return Err(StorageFailed); }
      work := work.(calls := work.calls[s.callId := NewCall(s)]);
      if failAt == 3 { Rollback(); return Err(StorageFailed); }
      work := work.(audit := work.audit + [Created(s.callId)]);
      if failAt == 4 { Rollback(); return Err(StorageFailed); }
      CreatingKeeps(old(work), s, work);
      committed := work;
      return Ok((s.callId, true));
    }

    method Rollback()
      modifies this`work
      ensures work == committed
    {
      work := committed;
    }

    /** A state change: replayed by command id, otherwise at the expected version only. */
    method Transition(id: string, to: CallState, command: string, expected: nat, outcome: Option<Outcome>, failed: bool)
      returns (r: Result<Call, Error>)
      requires Valid()
      modifies this
      ensures Valid()
      ensures r.Ok? ==> id in work.calls && r.value == work.calls[id]
      ensures r.Ok? && command !in old(work).commands ==>
        id in old(work).calls && old(work).calls[id].version == expected
            && Moves(old(work), id, to, command, outcome, work)
      ensures r.Err? || command in old(work).commands ==> work == old(work)
      ensures r.Ok? && command !in old(work).commands ==> OnlyMoves(old(work), work, id, to, command, outcome)
      ensures if command in old(work).commands
              then r.Ok? <==> old(work).commands[command] == id && id in old(work).calls
              else r.Ok? <==> id in old(work).calls && old(work).calls[id].version == expected
                              && ReachedFrom(to, old(work).calls[id].state) && !failed
      ensures r.Err? ==>
        r.error == if command in old(work).commands then CommandReused
                   else if id !in old(work).calls then Missing
                   else if old(work).calls[id].version != expected then VersionConflict
                   else if !ReachedFrom(to, old(work).calls[id].state) then InvalidTransition else StorageFailed
    {
      hide OnlyMoves, Allowed, ReachedFrom, MovedTables, Consistent;
      if command in work.commands {
        if work.commands[command] != id || id !in work.calls { return Err(CommandReused); }
        return Ok(work.calls[id]);
      }
      if id !in work.calls { return Err(Missing); }
      var current := work.calls[id];
      if current.version != expected { return Err(VersionConflict); }
      AllowedIff(current.state, to);
      if !Allowed(current.state, to) { return Err(InvalidTransition); }
      if failed { Rollback(); return Err(StorageFailed); }
      MovingKeeps(work, id, to, command, outcome);
      MovedTells(work, id, to, command, outcome);
      work := MovedTables(work, id, to, command, outcome);
      committed := work;
      return Ok(work.calls[id]);
    }
  }

  // ---- what each operation keeps ----

  lemma CreatingKeeps(t: Tables, s: Spec, t': Tables)
    requires Consistent(t) && Complete(s) && Creates(t, s, t')
    ensures Consistent(t')
  {
    forall id | id in t'.calls ensures CallOk(t', id) {
      assert id != s.callId ==> CallOk(t, id);
    }
    forall a, b | a in t'.calls && b in t'.calls
        && t'.calls[a].identity.executionKey == t'.calls[b].identity.executionKey
      ensures a == b
    {
      assert a != s.callId ==> !HasKey(t, a, s.identity.executionKey);
      assert b != s.callId ==> !HasKey(t, b, s.identity.executionKey);
    }
  }

  lemma MovingKeeps(t: Tables, id: string, to: CallState, command: string, outcome: Option<Outcome>)
    requires Consistent(t) && id in t.calls
    ensures Consistent(MovedTables(t, id, to, command, outcome))
  {
    var t' := MovedTables(t, id, to, command, outcome);
    forall k | k in t'.calls ensures CallOk(t', k) { assert CallOk(t, k); }
  }

  // ---- binding a run to its package snapshot ----

  /** `bind_snapshot` (runs.py) as far as it touches the identity of a run: a scope may
      replace none, itself or the bare conversation id; actor and workflow are overwritten. */
  function BoundRun(r: Run, id: string, scope: string, conversation: string, actor: string, workflow: string)
    : Option<Run>
  {
    if scope != "" && r.scope != "" && r.scope != scope && r.scope != conversation then None
    else Some(Run(if scope != "" then scope else r.scope, actor, if workflow != "" then workflow else id))
  }

  /** A binding overwrites the actor, and scope and workflow if they are given; without a workflow the run
      is its own. It is refused if it would change the scope to one that the run was not waiting for. */
  lemma BindingTells(r: Run, id: string, scope: string, conversation: string, actor: string, workflow: string)
    ensures var bound := BoundRun(r, id, scope, conversation, actor, workflow);
            && (bound.Some? <==> scope == "" || r.scope in ["", scope, conversation])
            && (bound.Some? ==>
                  && bound.value.actor == actor
                  && (if scope == "" then bound.value.scope == r.scope else bound.value.scope == scope)
                  && (if workflow == "" then bound.value.workflow == id else bound.value.workflow == workflow))
  {
  }

  predicate CalledFrom(t: Tables, run: string) {
    exists id :: id in t.calls && t.calls[id].identity.run == run
  }

  /** Binding keeps every call in agreement with its run if and only if the run has no calls
      yet or keeps its identity. */
  lemma BindingKeepsAgreementIff(t: Tables, id: string, scope: string, conversation: string, actor: string,
                                 workflow: string)
    requires Consistent(t) && id in t.runs && BoundRun(t.runs[id], id, scope, conversation, actor, workflow).Some?
    ensures var bound := BoundRun(t.runs[id], id, scope, conversation, actor, workflow).value;
            Consistent(t.(runs := t.runs[id := bound])) <==> !CalledFrom(t, id) || bound == t.runs[id]
  {
    var bound := BoundRun(t.runs[id], id, scope, conversation, actor, workflow).value;
    var t' := t.(runs := t.runs[id := bound]);
    if !CalledFrom(t, id) || bound == t.runs[id] {
      forall k | k in t'.calls ensures CallOk(t', k) { assert CallOk(t, k); }
    } else {
      var k :| k in t.calls && t.calls[k].identity.run == id;
      assert CallOk(t, k);
      assert !CallOk(t', k);
    }
  }

  // ---- whole runs ----

  datatype Op =
    | Create(spec: Spec)
    | Move(id: string, to: CallState, command: string, outcome: Option<Outcome>)
    | NewRun(runId: string, run: Run)
    | Bind(boundId: string, bound: Run)
    | Nothing

  ghost predicate Step(t: Tables, op: Op, t': Tables) {
    match op
    case Create(spec) => Complete(spec) && Creates(t, spec, t')
    case Move(id, to, command, outcome) => Moves(t, id, to, command, outcome, t')
    case NewRun(id, run) => id !in t.runs && t' == t.(runs := t.runs[id := run])
    case Bind(id, bound) =>
      id in t.runs && (!CalledFrom(t, id) || bound == t.runs[id]) && t' == t.(runs := t.runs[id := bound])
    case Nothing => t' == t
  }

  ghost predicate IsRun(states: seq<Tables>, ops: seq<Op>) {
    && |states| == |ops| + 1 && states[0] == EMPTY
    && (forall i: nat :: i < |ops| ==> Follows(states, ops, i))
  }

  ghost predicate Follows(states: seq<Tables>, ops: seq<Op>, i: nat)
    requires i < |ops| && |states| == |ops| + 1
  {
    Step(states[i], ops[i], states[i + 1])
  }

  lemma RunWriteKeeps(t: Tables, id: string, run: Run)
    requires Consistent(t) && (!CalledFrom(t, id) || (id in t.runs && run == t.runs[id]))
    ensures Consistent(t.(runs := t.runs[id := run]))
  {
    var t' := t.(runs := t.runs[id := run]);
    forall k | k in t'.calls ensures CallOk(t', k) { assert CallOk(t, k); }
  }

  lemma StepKeeps(t: Tables, op: Op, t': Tables)
    requires Consistent(t) && Step(t, op, t')
    ensures Consistent(t')
  {
    match op
    case Create(spec) => CreatingKeeps(t, spec, t');
    case Move(id, to, command, outcome) => MovingKeeps(t, id, to, command, outcome);
    case NewRun(id, run) =>
      assert !CalledFrom(t, id) by {
        forall k | k in t.calls ensures t.calls[k].identity.run != id { assert CallOk(t, k); }
      }
      RunWriteKeeps(t, id, run);
    case Bind(id, bound) => RunWriteKeeps(t, id, bound);
    case Nothing =>
  }

  /** Call ids and execution keys stay unique, and every call agrees with its run. */
  lemma {:induction false} RunKeeps(states: seq<Tables>, ops: seq<Op>, i: nat)
    requires IsRun(states, ops) && i < |states|
    ensures Consistent(states[i])
    decreases i
  {
    if i == 0 {
      assert states[0].calls == map[];
    } else {
      RunKeeps(states, ops, i - 1);
      assert Follows(states, ops, i - 1);
      StepKeeps(states[i - 1], ops[i - 1], states[i]);
    }
  }

  lemma {:induction false} CallsPersist(states: seq<Tables>, ops: seq<Op>, i: nat, j: nat, id: string)
    requires IsRun(states, ops) && i <= j < |states| && id in states[i].calls
    ensures id in states[j].calls
    ensures states[j].calls[id].identity == states[i].calls[id].identity
    ensures states[j].calls[id].scope == states[i].calls[id].scope
    ensures states[i].calls[id].version <= states[j].calls[id].version
    decreases j - i
  {
    if i < j {
      CallsPersist(states, ops, i, j - 1, id);
      assert Follows(states, ops, j - 1);
    }
  }

  /** Once a spec has created its call, at every later time the same spec, whatever call id it
      proposes, meets that call and no other, and is not refused. */
  lemma SpecFindsItsCall(states: seq<Tables>, ops: seq<Op>, i: nat, j: nat, s: Spec, proposed: string)
    requires IsRun(states, ops) && i < j < |states| && ops[i] == Create(s)
    ensures var again := s.(callId := proposed);
            && Meets(states[j], again, s.callId)
            && (forall id :: Meets(states[j], again, id) ==> id == s.callId)
            && SameIdentity(states[j].calls[s.callId], s.identity)
            && !Conflicts(states[j], again)
  {
    assert Follows(states, ops, i);
    CallsPersist(states, ops, i + 1, j, s.callId);
    RunKeeps(states, ops, j);
  }

  /** A stored call equals the spec, key and all. */
  ghost predicate Equalled(t: Tables, s: Spec) {
    exists id :: HasKey(t, id, s.identity.executionKey) && t.calls[id].identity == s.identity
  }

  lemma KeyedIsRefusedIff(t: Tables, other: Spec, id: string)
    requires KeysUnique(t) && HasKey(t, id, other.identity.executionKey)
    requires t.calls[id].scope == t.calls[id].identity.scope
    ensures Conflicts(t, other) <==> t.calls[id].identity != other.identity
    ensures Equalled(t, other) <==> t.calls[id].identity == other.identity
  {
    assert Meets(t, other, id);
  }

  /** A spec that shares call id or execution key with a stored call but differs otherwise is
      refused at every later time, unless its key is that of a third call, which equals it. */
  lemma OtherSpecIsRefusedIff(states: seq<Tables>, ops: seq<Op>, i: nat, j: nat, s: Spec, other: Spec)
    requires IsRun(states, ops) && i < j < |states| && ops[i] == Create(s)
    requires other.identity != s.identity
    requires other.identity.executionKey == s.identity.executionKey || other.callId == s.callId
    ensures Conflicts(states[j], other) <==> !Equalled(states[j], other)
  {
    assert Follows(states, ops, i);
    CallsPersist(states, ops, i + 1, j, s.callId);
    RunKeeps(states, ops, j);
    if id :| HasKey(states[j], id, other.identity.executionKey) {
      assert CallOk(states[j], id);
      KeyedIsRefusedIff(states[j], other, id);
    } else {
      assert HasKey(states[j], s.callId, s.identity.executionKey);
    }
  }

  // ---- a binding that parts a call from its run ----

  const X_IDENTITY := Identity("x", "x", "x", "x", "x", "x", "x", "x", "x", "x", "x", "x")
  const X_SPEC := Spec("x", X_IDENTITY)
  const WITH_RUN := EMPTY.(runs := map["x" := Run("x", "x", "x")])
  const WITH_CALL := WITH_RUN.(calls := map["x" := NewCall(X_SPEC)], audit := [Created("x")])

  /** A run has a call, and binding the run again to another actor parts the two. */
  lemma BindingPartsCallFromRun()
    ensures IsRun([EMPTY, WITH_RUN, WITH_CALL], [NewRun("x", Run("x", "x", "x")), Create(X_SPEC)])
    ensures BoundRun(WITH_CALL.runs["x"], "x", "x", "x", "y", "x") == Some(Run("x", "y", "x"))
    ensures !Consistent(WITH_CALL.(runs := WITH_CALL.runs["x" := Run("x", "y", "x")]))
  {
    var states, ops := [EMPTY, WITH_RUN, WITH_CALL], [NewRun("x", Run("x", "x", "x")), Create(X_SPEC)];
    assert Complete(X_SPEC) by { assert LStrip("x") == "x" && RStrip("x") == "x"; }
    assert Creates(WITH_RUN, X_SPEC, WITH_CALL);
    assert Follows(states, ops, 0);
    assert Follows(states, ops, 1);
    RunKeeps(states, ops, 2);
    assert states[2] == WITH_CALL && "x" in WITH_CALL.calls;
    assert CalledFrom(WITH_CALL, "x") by { assert WITH_CALL.calls["x"].identity.run == "x"; }
    BindingKeepsAgreementIff(WITH_CALL, "x", "x", "x", "y", "x");
  }
}
