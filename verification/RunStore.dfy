/** The durable run records: `AgentRunStore.create_or_get` (runs.py) and
    `LifecycleService.transition` (lifecycle.py, store.py), each one atomic step. */
module RunStore {
  import opened Wrappers
  import opened DispatchResult

  // Identifiers are compared for equality only.
  type RunId = nat
  type DispatcherId = nat

  datatype RunState =
    | Queued | Running | WaitingChild | WaitingApproval
    | Succeeded | Exhausted | Failed | Cancelled

  function StateName(s: RunState): string {
    match s
    case Queued => "queued"
    case Running => "running"
    case WaitingChild => "waiting_child"
    case WaitingApproval => "waiting_approval"
    case Succeeded => "succeeded"
    case Exhausted => "exhausted"
    case Failed => "failed"
    case Cancelled => "cancelled"
  }

  predicate Terminal(s: RunState) {
    s.Succeeded? || s.Exhausted? || s.Failed? || s.Cancelled?
  }

  /** The lifecycle table for agent runs. */
  predicate Allowed(from: RunState, to: RunState) {
    match from
    case Queued => to.Running? || to.Cancelled?
    case Running => !to.Queued? && !to.Running?
    case WaitingChild => to.Queued? || to.Failed? || to.Cancelled?
    case WaitingApproval => to.Queued? || to.Failed? || to.Cancelled?
    case _ => false
  }

  datatype Target = Target(agentName: nat, agentRef: nat, skillRef: nat, snapshot: nat)

  /** The governed identity hashed into the execution key of a child run. */
  datatype Key = Key(parent: RunId, toolCall: nat, target: Target)

  /** Actor, scope and workflow, which a child must share with its parent. */
  datatype Principal = Principal(actor: nat, scope: nat, workflow: nat)

  datatype Run = Run(
    state: RunState, version: nat, principal: Principal,
    key: Option<Key>, envelope: Option<Object>)

  /** Idempotency keys of transitions, one constructor per `command_id` the
      coordinator builds. `Claim` carries the dispatcher because that id ends in a
      fresh random number; `Outside` stands for commands of other components. */
  datatype Command =
    | Claim(child: RunId, winner: DispatcherId)
    | WaitChild(child: RunId)
    | ParentUnavailable(child: RunId)
    | Fail(child: RunId)
    | WaitApproval(child: RunId)
    | Finish(child: RunId)
    | ChildDoneQueue(child: RunId)
    | ChildDoneRun(child: RunId)
    | Outside(serial: nat)

  datatype Entry = Entry(run: RunId, version: nat)

  /** `index` is the unique index on execution keys, `journal` the transition log. */
  datatype Store = Store(
    runs: map<RunId, Run>,
    index: map<Key, RunId>,
    journal: map<Command, Entry>)

  datatype Error =
    | Conflict | VersionConflict | InvalidTransition | CommandReused | Missing
    | ParentNotRunning | AgentError | InProgress | ChildEnded

  /** A repeated command returns without looking at version or state. */
  function Transition(st: Store, id: RunId, to: RunState, cmd: Command,
                      expected: nat, patch: Option<Object>): Result<Store, Error>
  {
    if cmd in st.journal then
      if st.journal[cmd].run != id then Err(CommandReused) else Ok(st)
    else if id !in st.runs then Err(Missing)
    else if st.runs[id].version != expected then Err(VersionConflict)
    else if !Allowed(st.runs[id].state, to) then Err(InvalidTransition)
    else Ok(Moved(st, id, to, cmd, patch))
  }

  function Moved(st: Store, id: RunId, to: RunState, cmd: Command, patch: Option<Object>): Store
    requires id in st.runs
  {
    var r := st.runs[id];
    st.(runs := st.runs[id := r.(state := to, version := r.version + 1,
                                 envelope := if patch.Some? then patch else r.envelope)],
        journal := st.journal[cmd := Entry(id, r.version + 1)])
  }

  datatype Spec = Spec(candidate: RunId, key: Key, principal: Principal)

  datatype Created = Created(store: Store, run: RunId, created: bool)

  /** A record found under the same execution key must have the same principal; one
      found under the candidate id alone has another key, so it conflicts too. */
  function CreateOrGet(st: Store, spec: Spec): Result<Created, Error> {
    if spec.key in st.index then
      var id := st.index[spec.key];
      if id !in st.runs then Err(Missing)
      else if st.runs[id].principal != spec.principal then Err(Conflict)
      else Ok(Created(st, id, false))
    else if spec.candidate in st.runs then Err(Conflict)
    else if spec.key.parent !in st.runs || st.runs[spec.key.parent].principal != spec.principal then
      Err(Conflict)
    else
      var r := Run(Queued, 0, spec.principal, Some(spec.key), None);
      Ok(Created(st.(runs := st.runs[spec.candidate := r],
                     index := st.index[spec.key := spec.candidate]),
                 spec.candidate, true))
  }

  // ---- what one step does to the store ----

  /** Which states each state is entered from. */
  lemma LifecycleTells(from: RunState, to: RunState)
    ensures to.Running? ==> (Allowed(from, to) <==> from.Queued?)
    ensures to.Queued? ==> (Allowed(from, to) <==> from.WaitingChild? || from.WaitingApproval?)
    ensures to.Failed? ==> (Allowed(from, to) <==> from.Running? || from.WaitingChild? || from.WaitingApproval?)
    ensures to.Cancelled? ==>
      (Allowed(from, to) <==> from.Queued? || from.Running? || from.WaitingChild? || from.WaitingApproval?)
    ensures to.WaitingChild? || to.WaitingApproval? || to.Succeeded? || to.Exhausted? ==>
      (Allowed(from, to) <==> from.Running?)
    ensures Terminal(from) <==> forall state :: !Allowed(from, state)
  {
    if !Terminal(from) { assert Allowed(from, Cancelled); }
  }

  /** The step has been made before under this command, and for this run. */
  ghost predicate Repeated(st: Store, id: RunId, cmd: Command) { cmd in st.journal && st.journal[cmd].run == id }

  /** The run is in `to`, with the next version and the envelope given, if any; all other runs, the
      other commands and the keys are as before. */
  ghost predicate Stepped(st: Store, st': Store, id: RunId, to: RunState, cmd: Command, patch: Option<Object>) {
    && id in st.runs && st'.index == st.index && st'.runs.Keys == st.runs.Keys
    && (forall r <- st.runs :: r != id ==> st'.runs[r] == st.runs[r])
    && st'.runs[id].state == to && st'.runs[id].version == st.runs[id].version + 1
    && st'.runs[id].principal == st.runs[id].principal && st'.runs[id].key == st.runs[id].key
    && st'.runs[id].envelope == (if patch == None then st.runs[id].envelope else patch)
    && st'.journal.Keys == st.journal.Keys + {cmd}
    && (forall c <- st.journal :: c != cmd ==> st'.journal[c] == st.journal[c])
    && st'.journal[cmd].run == id && st'.journal[cmd].version == st.runs[id].version + 1
  }

  /** A transition is made if the command is new, the run is stored with the expected version and its
      state may be left for the new one; repeated, it changes nothing. */
  lemma TransitionTells(st: Store, id: RunId, to: RunState, cmd: Command, expected: nat, patch: Option<Object>)
    ensures var r := Transition(st, id, to, cmd, expected, patch);
      var fits := cmd !in st.journal && id in st.runs && st.runs[id].version == expected;
      && (r == Err(CommandReused) <==> cmd in st.journal && !Repeated(st, id, cmd))
      && (r == Err(Missing) <==> cmd !in st.journal && id !in st.runs)
      && (r == Err(VersionConflict) <==> cmd !in st.journal && id in st.runs && st.runs[id].version != expected)
      && (r == Err(InvalidTransition) <==> fits && !Allowed(st.runs[id].state, to))
      && (r.Ok? <==> Repeated(st, id, cmd) || (fits && Allowed(st.runs[id].state, to)))
      && (Repeated(st, id, cmd) ==> r.value == st)
      && (r.Ok? && !Repeated(st, id, cmd) ==> Stepped(st, r.value, id, to, cmd, patch))
  {
    hide Allowed;
  }

  /** One run under a key: it is found if it acts for the same principal, and created, queued, if
      the id is free and the parent acts for that principal. */
  lemma CreationTells(st: Store, spec: Spec)
    ensures var r, parent := CreateOrGet(st, spec), spec.key.parent;
      && (spec.key in st.index && st.index[spec.key] in st.runs ==>
            r == if st.runs[st.index[spec.key]].principal == spec.principal
                 then Ok(Created(st, st.index[spec.key], false)) else Err(Conflict))
      && (r == Err(Missing) <==> spec.key in st.index && st.index[spec.key] !in st.runs)
      && (r.Err? ==> r.error in [Missing, Conflict])
      && (spec.key !in st.index ==>
            (r.Ok? <==> && spec.candidate !in st.runs && parent in st.runs
                        && st.runs[parent].principal == spec.principal))
      && (spec.key !in st.index && r.Ok? ==>
            && r.value.created && r.value.run == spec.candidate
            && var st' := r.value.store;
               && st'.journal == st.journal
               && st'.runs.Keys == st.runs.Keys + {spec.candidate}
               && (forall i <- st.runs :: st'.runs[i] == st.runs[i])
               && st'.runs[spec.candidate] == Run(Queued, 0, spec.principal, Some(spec.key), None)
               && st'.index.Keys == st.index.Keys + {spec.key} && st'.index[spec.key] == spec.candidate
               && (forall k <- st.index :: st'.index[k] == st.index[k]))
  {
  }
}
