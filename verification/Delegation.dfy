/** The delegation protocol of `RunCoordinator.dispatch` (dispatcher.py) as a state
    machine: any number of dispatchers, each with its own program counter, each able
    to crash anywhere, next to the other components that move runs and to the
    restart recovery of `LifecycleService.reconcile`. */
module Delegation {
  import opened Wrappers
  import opened DispatchResult
  import opened RunStore

  /** A finished call: what it returned, with the identity of the child run. */
  datatype Reply = Reply(parent: RunId, run: RunId, target: Target, report: Report)

  datatype Outcome = Returned(reply: Reply) | Raised(error: Error)

  /** Where a dispatcher stands. `v` is the child version it claimed, `pv` the parent
      version it produced. Each state names the step that comes next. */
  datatype Pc =
    | FoundQueued(child: RunId, v: nat)                             // claim the child
    | Claimed(child: RunId, v: nat)                                 // read the parent
    | SawParent(child: RunId, v: nat, seen: RunState, pv: nat)      // make the parent wait
    | Refused(child: RunId, v: nat, why: Error)                     // fail the child
    | HoldsParent(child: RunId, v: nat, pv: nat)                    // start agent.run
    | InAgent(child: RunId, v: nat, pv: nat)                        // inside agent.run
    | AgentFailed(child: RunId, v: nat, pv: nat)                    // fail the child
    | AgentDone(child: RunId, v: nat, pv: nat, output: AgentOutput) // record the result
    | Resuming(child: RunId, pv: nat, outcome: Outcome)             // queue the parent
    | Requeued(child: RunId, pv: nat, outcome: Outcome)             // run the parent
    | Done(outcome: Outcome)
    | Crashed

  /** `starts` counts, per child run, how often `agent.run` was entered. */
  datatype State = State(
    st: Store,
    calls: map<DispatcherId, Spec>,
    pcs: map<DispatcherId, Pc>,
    starts: multiset<RunId>)

  datatype Action =
    | Begin(d: DispatcherId, call: Spec)
    | Advance(d: DispatcherId)
    | AgentReturns(d: DispatcherId, output: AgentOutput)
    | AgentRaises(d: DispatcherId)
    | Crash(d: DispatcherId)
    | NewRun(run: RunId, principal: Principal)
    | MoveOutside(run: RunId, to: RunState, serial: nat)
    | Reconcile(run: RunId, serial: nat)

  const INIT: State := State(Store(map[], map[], map[]), map[], map[], multiset{})

  predicate Over(pc: Pc) { pc.Done? || pc.Crashed? }

  // ---- steps of one dispatcher ----

  /** `_replay` for a record whose state is not QUEUED. */
  function Replay(run: RunId, r: Run, target: Target): Outcome
    requires r.key.Some?
  {
    if r.state.Running? then Raised(InProgress)
    else if r.state.Failed? || r.state.Cancelled? then Raised(ChildEnded)
    else
      var envelope := if r.envelope.Some? then r.envelope.value else map[];
      Returned(Reply(r.key.value.parent, run, target, ReplayReport(envelope, StateName(r.state))))
  }

  function BeginStep(s: State, d: DispatcherId, call: Spec): State {
    var s1 := s.(calls := s.calls[d := call]);
    match CreateOrGet(s.st, call)
    case Err(e) => s1.(pcs := s.pcs[d := Done(Raised(e))])
    case Ok(Created(st, c, created)) =>
      if c !in st.runs || st.runs[c].key.None? then s1.(pcs := s.pcs[d := Done(Raised(Missing))])
      else if !created && !st.runs[c].state.Queued? then
        s1.(pcs := s.pcs[d := Done(Replay(c, st.runs[c], call.key.target))])
      else s1.(st := st, pcs := s.pcs[d := FoundQueued(c, st.runs[c].version)])
  }

  function Goto(s: State, d: DispatcherId, pc: Pc): State { s.(pcs := s.pcs[d := pc]) }

  function VersionOf(st: Store, id: RunId): nat {
    if id in st.runs then st.runs[id].version else 0
  }

  /** Where the recorded status sends the child. */
  function RecordedState(status: string): RunState {
    if status == "waiting_approval" then WaitingApproval
    else if status == "exhausted" then Exhausted
    else Succeeded
  }

  function RecordCommand(c: RunId, status: string): Command {
    if status == "waiting_approval" then WaitApproval(c) else Finish(c)
  }

  function FirstReply(p: RunId, c: RunId, target: Target, output: AgentOutput): Reply {
    Reply(p, c, target, FirstReport(output))
  }

  /** The next step of a dispatcher, everywhere but inside `agent.run`. */
  function AdvanceStep(s: State, d: DispatcherId): State
    requires d in s.pcs && d in s.calls
  {
    var p := s.calls[d].key.parent;
    match s.pcs[d]
    case FoundQueued(c, v) =>
      (match Transition(s.st, c, Running, Claim(c, d), v, None)
       case Err(e) => Goto(s, d, Done(Raised(e)))
       case Ok(st) => Goto(s.(st := st), d, Claimed(c, VersionOf(st, c))))
    case Claimed(c, v) =>
      if p !in s.st.runs then Goto(s, d, Done(Raised(Missing)))
      else Goto(s, d, SawParent(c, v, s.st.runs[p].state, s.st.runs[p].version))
    case SawParent(c, v, seen, pv) =>
      if !seen.Running? then Goto(s, d, Refused(c, v, ParentNotRunning))
      else
        (match Transition(s.st, p, WaitingChild, WaitChild(c), pv, None)
         case Err(e) => Goto(s, d, Refused(c, v, e))
         case Ok(st) => Goto(s.(st := st), d, HoldsParent(c, v, VersionOf(st, p))))
    case Refused(c, v, why) =>
      (match Transition(s.st, c, Failed, ParentUnavailable(c), v, None)
       case Err(e) => Goto(s, d, Done(Raised(e)))
       case Ok(st) => Goto(s.(st := st), d, Done(Raised(why))))
    case HoldsParent(c, v, pv) =>
      Goto(s.(starts := s.starts + multiset{c}), d, InAgent(c, v, pv))
    case AgentFailed(c, v, pv) =>
      (match Transition(s.st, c, Failed, Fail(c), v, None)
       case Err(e) => Goto(s, d, Done(Raised(e)))
       case Ok(st) => Goto(s.(st := st), d, Resuming(c, pv, Raised(AgentError))))
    case AgentDone(c, v, pv, output) =>
      var status := RuntimeStatus(output);
      var reply := Returned(FirstReply(p, c, s.calls[d].key.target, output));
      (match Transition(s.st, c, RecordedState(status), RecordCommand(c, status), v, Some(Envelope(output)))
       case Err(e) => Goto(s, d, Done(Raised(e)))
       case Ok(st) =>
         if status == "waiting_approval" then Goto(s.(st := st), d, Done(reply))
         else Goto(s.(st := st), d, Resuming(c, pv, reply)))
    case Resuming(c, pv, outcome) =>
      (match Transition(s.st, p, Queued, ChildDoneQueue(c), pv, None)
       case Err(e) => Goto(s, d, Done(Raised(e)))
       case Ok(st) => Goto(s.(st := st), d, Requeued(c, VersionOf(st, p), outcome)))
    case Requeued(c, pv, outcome) =>
      (match Transition(s.st, p, Running, ChildDoneRun(c), pv, None)
       case Err(e) => Goto(s, d, Done(Raised(e)))
       case Ok(st) => Goto(s.(st := st), d, Done(outcome)))
    case _ => s
  }

  // ---- all steps ----

  /** Moves other components make: start, finish, cancel or recover a run. They never
      put a run into WAITING_CHILD, never take one out of it except to end it, and
      leave the claim and the outcome of a delegated run to its dispatcher. */
  predicate OutsideMove(r: Run, to: RunState) {
    && Allowed(r.state, to)
    && !to.WaitingChild?
    && (r.state.WaitingChild? ==> !to.Queued?)
    && (r.key.Some? ==> to.Failed? || to.Cancelled?)
  }

  /** Into which states others move a run, and from which. */
  lemma OutsideMovesTell(r: Run, to: RunState)
    ensures to.Cancelled? ==> (OutsideMove(r, to) <==> !Terminal(r.state))
    ensures to.Failed? ==>
      (OutsideMove(r, to) <==> r.state.Running? || r.state.WaitingChild? || r.state.WaitingApproval?)
    ensures to.WaitingChild? ==> !OutsideMove(r, to)
    ensures r.key.Some? && !to.Failed? && !to.Cancelled? ==> !OutsideMove(r, to)
    ensures r.key.None? && to.Running? ==> (OutsideMove(r, to) <==> r.state.Queued?)
    ensures r.key.None? && to.Queued? ==> (OutsideMove(r, to) <==> r.state.WaitingApproval?)
    ensures r.key.None? && (to.Succeeded? || to.Exhausted? || to.WaitingApproval?) ==>
      (OutsideMove(r, to) <==> r.state.Running?)
  {
  }

  /** A run delegates only from inside its own execution, so a delegated run does so
      only after its `agent.run` was entered. */
  predicate MayDelegate(s: State, p: RunId) {
    p in s.st.runs && s.st.runs[p].key.Some? ==> p in s.starts
  }

  /** Has claimed its child and may go on to make the parent wait. */
  predicate Entrant(pc: Pc) { pc.Claimed? || (pc.SawParent? && pc.seen.Running?) }

  /** Some dispatcher stands between its claim of `c` and the first wait for `c`. */
  predicate Exposed(s: State, c: RunId) {
    WaitChild(c) !in s.st.journal && exists d <- s.pcs :: Entrant(s.pcs[d]) && s.pcs[d].child == c
  }

  /** Past the wait, not yet done with the child. */
  predicate PastWait(pc: Pc) { pc.HoldsParent? || pc.InAgent? || pc.AgentFailed? || pc.AgentDone? }

  /** About to put its child into WAITING_APPROVAL, which ends the dispatch. */
  predicate Suspends(pc: Pc) { pc.AgentDone? && RuntimeStatus(pc.output) == "waiting_approval" }

  /** `d` has made `p` wait, and nothing has happened yet that keeps it from letting `p` go. */
  predicate Releases(s: State, d: DispatcherId, p: RunId) {
    && d in s.pcs && d in s.calls && s.calls[d].key.parent == p
    && var pc := s.pcs[d];
       pc.Resuming? || (PastWait(pc) && !Suspends(pc) && VersionOf(s.st, pc.child) == pc.v)
  }

  /** The run `p` runs, or can come to run again. */
  predicate MayRun(s: State, p: RunId) {
    p in s.st.runs &&
    match s.st.runs[p].state
    case Running => true
    case Queued => true
    case WaitingApproval => s.st.runs[p].key.None?
    case WaitingChild => exists d <- s.pcs :: Releases(s, d, p)
    case _ => false
  }

  /** Recovering `c` now would open the way to a second start. */
  predicate Unsafe(s: State, c: RunId) {
    Exposed(s, c) && c in s.st.runs && s.st.runs[c].key.Some? && MayRun(s, s.st.runs[c].key.value.parent)
  }

  predicate EnabledBesideDispatchers(s: State, a: Action) {
    match a
    case Begin(d, call) => d !in s.pcs && MayDelegate(s, call.key.parent)
    case Advance(d) => d in s.pcs && d in s.calls && !Over(s.pcs[d]) && !s.pcs[d].InAgent?
    case AgentReturns(d, _) => d in s.pcs && s.pcs[d].InAgent?
    case AgentRaises(d) => d in s.pcs && s.pcs[d].InAgent?
    case Crash(d) => d in s.pcs && !Over(s.pcs[d])
    case NewRun(r, _) => r !in s.st.runs
    case MoveOutside(r, to, n) =>
      r in s.st.runs && OutsideMove(s.st.runs[r], to) && Outside(n) !in s.st.journal
    case Reconcile(r, n) =>
      r in s.st.runs && s.st.runs[r].state.Running? && Outside(n) !in s.st.journal
  }

  /** Recovery may requeue a running run at any time, beside any dispatchers, unless the run is
      a child exposed to a second start whose parent can come to run again. */
  predicate Enabled(s: State, a: Action) {
    && EnabledBesideDispatchers(s, a)
    && (a.Reconcile? ==> !Unsafe(s, a.run))
  }

  function Apply(s: State, a: Action): State
    requires EnabledBesideDispatchers(s, a)
  {
    match a
    case Begin(d, call) => BeginStep(s, d, call)
    case Advance(d) => AdvanceStep(s, d)
    case AgentReturns(d, output) =>
      var pc := s.pcs[d]; Goto(s, d, AgentDone(pc.child, pc.v, pc.pv, output))
    case AgentRaises(d) =>
      var pc := s.pcs[d]; Goto(s, d, AgentFailed(pc.child, pc.v, pc.pv))
    case Crash(d) => Goto(s, d, Crashed)
    case NewRun(r, principal) =>
      s.(st := s.st.(runs := s.st.runs[r := Run(Queued, 0, principal, None, None)]))
    case MoveOutside(r, to, n) => s.(st := Moved(s.st, r, to, Outside(n), None))
    case Reconcile(r, n) => s.(st := Moved(s.st, r, Queued, Outside(n), None))
  }

  /** A run of the system: every state follows from the one before by an enabled action. */
  ghost predicate IsRun(states: seq<State>, actions: seq<Action>) {
    && |states| == |actions| + 1
    && states[0] == INIT
    && forall i: nat :: i < |actions| ==> Follows(states, actions, i)
  }

  ghost predicate Follows(states: seq<State>, actions: seq<Action>, i: nat)
    requires i < |actions| && |states| == |actions| + 1
  {
    Enabled(states[i], actions[i]) && states[i + 1] == Apply(states[i], actions[i])
  }
}
