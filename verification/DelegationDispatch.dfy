/** A dispatch that nobody disturbs, from any reachable state: the whole state it ends in, when the agent
    returns, when it raises, and when the parent is not running. */
module DelegationDispatch {
  import opened Wrappers
  import opened DispatchResult
  import opened RunStore
  import opened Delegation
  import opened DelegationInvariant
  import opened DelegationSteps
  import opened DelegationClaims
  import opened DelegationRevival
  import opened DelegationOutcomes

  /** Nobody has used the dispatcher, the key or the candidate id, and the parent may delegate. */
  ghost predicate FirstCall(s: State, d: DispatcherId, call: Spec) {
    && d !in s.pcs && call.key !in s.st.index && call.candidate !in s.st.runs
    && call.key.parent in s.st.runs && s.st.runs[call.key.parent].principal == call.principal
    && MayDelegate(s, call.key.parent)
  }

  /** `s` is `s0` with the dispatcher at `pc`, its child and the parent as given, `cmds` issued and
      `agents` entered. */
  ghost predicate Along(s0: State, s: State, d: DispatcherId, call: Spec, pc: Pc, child: Run, parent: Run,
                        cmds: set<Command>, agents: multiset<RunId>)
  {
    && s.calls == s0.calls[d := call] && s.pcs == s0.pcs[d := pc]
    && s.st.runs == s0.st.runs[call.candidate := child][call.key.parent := parent]
    && s.st.journal.Keys == s0.st.journal.Keys + cmds
    && s.starts == s0.starts + agents
  }

  /** `t` is `s0` with the dispatch over: its outcome, its child, the parent, and the agents entered. */
  ghost predicate Ended(s0: State, t: State, d: DispatcherId, call: Spec, outcome: Outcome, child: Run, parent: Run,
                        agents: multiset<RunId>)
  {
    && t.calls == s0.calls[d := call] && t.pcs == s0.pcs[d := Done(outcome)]
    && t.st.runs == s0.st.runs[call.candidate := child][call.key.parent := parent]
    && t.starts == s0.starts + agents
  }

  function Own(c: RunId): set<Command> {
    {WaitChild(c), ParentUnavailable(c), Fail(c), WaitApproval(c), Finish(c), ChildDoneQueue(c), ChildDoneRun(c)}
  }

  /** The commands of a child are unused before it exists. */
  lemma CommandsAreNew(s: State, d: DispatcherId, c: RunId)
    requires Inv(s) && EndingOk(s) && d !in s.pcs && c !in s.st.runs
    ensures Claim(c, d) !in s.st.journal && Own(c) !! s.st.journal.Keys
  {
    assert HolderOk(s.st, c) && RefusalOk(s.st, c);
    assert Unfinished(s.st, c);
  }

  // ---- step by step ----

  function NewChild(call: Spec, state: RunState, version: nat, envelope: Option<Object>): Run {
    Run(state, version, call.principal, Some(call.key), envelope)
  }

  lemma BeginsNew(s: State, d: DispatcherId, call: Spec)
    requires FirstCall(s, d, call)
    ensures Enabled(s, Begin(d, call))
    ensures Along(s, BeginStep(s, d, call), d, call, FoundQueued(call.candidate, 0), NewChild(call, Queued, 0, None),
                  s.st.runs[call.key.parent], {}, multiset{})
  {
  }

  lemma ClaimsNew(s0: State, s: State, d: DispatcherId, call: Spec, parent: Run)
    requires call.candidate != call.key.parent && Claim(call.candidate, d) !in s0.st.journal
    requires Along(s0, s, d, call, FoundQueued(call.candidate, 0), NewChild(call, Queued, 0, None), parent, {},
                   multiset{})
    ensures Enabled(s, Advance(d))
    ensures Along(s0, AdvanceStep(s, d), d, call, Claimed(call.candidate, 1), NewChild(call, Running, 1, None), parent,
                  {Claim(call.candidate, d)}, multiset{})
  {
  }

  lemma Looks(s0: State, s: State, d: DispatcherId, call: Spec, child: Run, parent: Run, cmds: set<Command>)
    requires Along(s0, s, d, call, Claimed(call.candidate, 1), child, parent, cmds, multiset{})
    ensures Enabled(s, Advance(d))
    ensures Along(s0, AdvanceStep(s, d), d, call, SawParent(call.candidate, 1, parent.state, parent.version), child,
                  parent, cmds, multiset{})
  {
  }

  lemma Waits(s0: State, s: State, d: DispatcherId, call: Spec, child: Run, parent: Run, cmds: set<Command>)
    requires call.candidate != call.key.parent && WaitChild(call.candidate) !in s0.st.journal.Keys + cmds
        && parent.state.Running?
    requires Along(s0, s, d, call, SawParent(call.candidate, 1, parent.state, parent.version), child, parent, cmds,
                   multiset{})
    ensures Enabled(s, Advance(d))
    ensures Along(s0, AdvanceStep(s, d), d, call, HoldsParent(call.candidate, 1, parent.version + 1), child,
                  parent.(state := WaitingChild, version := parent.version + 1),
                  cmds + {WaitChild(call.candidate)}, multiset{})
  {
  }

  lemma StartsAgent(s0: State, s: State, d: DispatcherId, call: Spec, pv: nat, child: Run, parent: Run,
                    cmds: set<Command>)
    requires Along(s0, s, d, call, HoldsParent(call.candidate, 1, pv), child, parent, cmds, multiset{})
    ensures Enabled(s, Advance(d))
    ensures Along(s0, AdvanceStep(s, d), d, call, InAgent(call.candidate, 1, pv), child, parent, cmds,
                  multiset{call.candidate})
  {
  }

  lemma AgentReturnsTo(s0: State, s: State, d: DispatcherId, call: Spec, pv: nat, child: Run, parent: Run,
                       cmds: set<Command>, output: AgentOutput)
    requires Along(s0, s, d, call, InAgent(call.candidate, 1, pv), child, parent, cmds, multiset{call.candidate})
    ensures Enabled(s, AgentReturns(d, output))
    ensures Along(s0, Apply(s, AgentReturns(d, output)), d, call, AgentDone(call.candidate, 1, pv, output), child,
                  parent, cmds, multiset{call.candidate})
  {
  }

  lemma AgentRaisesTo(s0: State, s: State, d: DispatcherId, call: Spec, pv: nat, child: Run, parent: Run,
                      cmds: set<Command>)
    requires Along(s0, s, d, call, InAgent(call.candidate, 1, pv), child, parent, cmds, multiset{call.candidate})
    ensures Enabled(s, AgentRaises(d))
    ensures Along(s0, Apply(s, AgentRaises(d)), d, call, AgentFailed(call.candidate, 1, pv), child, parent,
                  cmds, multiset{call.candidate})
  {
  }

  /** The move of the child that ends its agent, and the dispatcher going on to `pc`. */
  lemma ChildMoved(s0: State, s: State, d: DispatcherId, call: Spec, was: Pc, pc: Pc, parent: Run, cmds: set<Command>,
                   to: RunState, cmd: Command, patch: Option<Object>)
    requires call.candidate != call.key.parent
    requires Along(s0, s, d, call, was, NewChild(call, Running, 1, None), parent, cmds, multiset{call.candidate})
    ensures Along(s0, Goto(s.(st := Moved(s.st, call.candidate, to, cmd, patch)), d, pc), d, call, pc,
                  NewChild(call, to, 2, patch), parent, cmds + {cmd}, multiset{call.candidate})
  {
  }

  lemma RecordGoesThrough(st: Store, c: RunId, output: AgentOutput)
    requires c in st.runs && st.runs[c].version == 1 && st.runs[c].state.Running?
    requires WaitApproval(c) !in st.journal && Finish(c) !in st.journal
    ensures var status, patch := RuntimeStatus(output), Some(Envelope(output));
            var to := if status == "waiting_approval" then WaitingApproval
                      else if status == "exhausted" then Exhausted else Succeeded;
            var cmd := if status == "waiting_approval" then WaitApproval(c) else Finish(c);
            Transition(st, c, RecordedState(status), RecordCommand(c, status), 1, patch) ==
            Ok(Moved(st, c, to, cmd, patch))
  {
  }

  /** The outcome is recorded: the child waits for an approval, and with it the parent, or it ends. */
  lemma Records(s0: State, s: State, d: DispatcherId, call: Spec, pv: nat, parent: Run, cmds: set<Command>,
                output: AgentOutput)
    requires call.candidate != call.key.parent && Own(call.candidate) !! s0.st.journal.Keys
    requires WaitApproval(call.candidate) !in cmds && Finish(call.candidate) !in cmds
    requires Along(s0, s, d, call, AgentDone(call.candidate, 1, pv, output), NewChild(call, Running, 1, None), parent,
                   cmds, multiset{call.candidate})
    ensures Enabled(s, Advance(d))
    ensures var t := AdvanceStep(s, d);
            var reply := Returned(FirstReply(call.key.parent, call.candidate, call.key.target, output));
            var status, patch := RuntimeStatus(output), Some(Envelope(output));
            && (status == "waiting_approval" ==>
                  Ended(s0, t, d, call, reply, NewChild(call, WaitingApproval, 2, patch), parent,
                        multiset{call.candidate}))
            && (status != "waiting_approval" ==>
                  Along(s0, t, d, call, Resuming(call.candidate, pv, reply),
                        NewChild(call, if status == "exhausted" then Exhausted else Succeeded, 2, patch), parent,
                        cmds + {Finish(call.candidate)}, multiset{call.candidate}))
  {
    var c, was := call.candidate, s.pcs[d];
    var reply := Returned(FirstReply(call.key.parent, c, call.key.target, output));
    var patch := Some(Envelope(output));
    assert WaitApproval(c) in Own(c) && Finish(c) in Own(c);
    RecordGoesThrough(s.st, c, output);
    if RuntimeStatus(output) == "waiting_approval" {
      ChildMoved(s0, s, d, call, was, Done(reply), parent, cmds, WaitingApproval, WaitApproval(c), patch);
    } else {
      ChildMoved(s0, s, d, call, was, Resuming(c, pv, reply), parent, cmds,
                 if RuntimeStatus(output) == "exhausted" then Exhausted else Succeeded, Finish(c), patch);
    }
  }

  lemma FailsChild(s0: State, s: State, d: DispatcherId, call: Spec, pv: nat, parent: Run, cmds: set<Command>)
    requires call.candidate != call.key.parent && Fail(call.candidate) !in s0.st.journal.Keys + cmds
    requires Along(s0, s, d, call, AgentFailed(call.candidate, 1, pv), NewChild(call, Running, 1, None), parent, cmds,
                   multiset{call.candidate})
    ensures Enabled(s, Advance(d))
    ensures Along(s0, AdvanceStep(s, d), d, call, Resuming(call.candidate, pv, Raised(AgentError)),
                  NewChild(call, Failed, 2, None), parent, cmds + {Fail(call.candidate)}, multiset{call.candidate})
  {
  }

  lemma Queues(s0: State, s: State, d: DispatcherId, call: Spec, outcome: Outcome, child: Run, parent: Run,
               cmds: set<Command>)
    requires call.candidate != call.key.parent && ChildDoneQueue(call.candidate) !in s0.st.journal.Keys + cmds
    requires parent.state.WaitingChild?
    requires Along(s0, s, d, call, Resuming(call.candidate, parent.version, outcome), child, parent, cmds,
                   multiset{call.candidate})
    ensures Enabled(s, Advance(d))
    ensures Along(s0, AdvanceStep(s, d), d, call, Requeued(call.candidate, parent.version + 1, outcome), child,
                  parent.(state := Queued, version := parent.version + 1),
                  cmds + {ChildDoneQueue(call.candidate)}, multiset{call.candidate})
  {
  }

  lemma Reruns(s0: State, s: State, d: DispatcherId, call: Spec, outcome: Outcome, child: Run, parent: Run,
               cmds: set<Command>)
    requires call.candidate != call.key.parent && ChildDoneRun(call.candidate) !in s0.st.journal.Keys + cmds
    requires parent.state.Queued?
    requires Along(s0, s, d, call, Requeued(call.candidate, parent.version, outcome), child, parent, cmds,
                   multiset{call.candidate})
    ensures Enabled(s, Advance(d))
    ensures Along(s0, AdvanceStep(s, d), d, call, Done(outcome), child,
                  parent.(state := Running, version := parent.version + 1),
                  cmds + {ChildDoneRun(call.candidate)}, multiset{call.candidate})
  {
  }

  lemma Refuses(s0: State, s: State, d: DispatcherId, call: Spec, child: Run, parent: Run, cmds: set<Command>)
    requires !parent.state.Running?
    requires Along(s0, s, d, call, SawParent(call.candidate, 1, parent.state, parent.version), child, parent, cmds,
                   multiset{})
    ensures Enabled(s, Advance(d))
    ensures Along(s0, AdvanceStep(s, d), d, call, Refused(call.candidate, 1, ParentNotRunning), child, parent, cmds,
                  multiset{})
  {
  }

  lemma FailsUnheard(s0: State, s: State, d: DispatcherId, call: Spec, parent: Run, cmds: set<Command>)
    requires call.candidate != call.key.parent && ParentUnavailable(call.candidate) !in s0.st.journal.Keys + cmds
    requires Along(s0, s, d, call, Refused(call.candidate, 1, ParentNotRunning), NewChild(call, Running, 1, None),
                   parent, cmds, multiset{})
    ensures Enabled(s, Advance(d))
    ensures Along(s0, AdvanceStep(s, d), d, call, Done(Raised(ParentNotRunning)), NewChild(call, Failed, 2, None),
                  parent, cmds + {ParentUnavailable(call.candidate)}, multiset{})
  {
  }

  // ---- stretches of a dispatch ----

  /** From its arrival to the look at the parent. */
  lemma Arrives(s: State, d: DispatcherId, call: Spec) returns (path: seq<Action>, t: State)
    requires FirstCall(s, d, call) && Claim(call.candidate, d) !in s.st.journal
    ensures Continue(s, path) == Some(t)
    ensures var parent := s.st.runs[call.key.parent];
            Along(s, t, d, call, SawParent(call.candidate, 1, parent.state, parent.version),
                  NewChild(call, Running, 1, None), parent, {Claim(call.candidate, d)}, multiset{})
  {
    var c, parent := call.candidate, s.st.runs[call.key.parent];
    BeginsNew(s, d, call);
    var s1 := BeginStep(s, d, call);
    ClaimsNew(s, s1, d, call, parent);
    var s2 := AdvanceStep(s1, d);
    Looks(s, s2, d, call, NewChild(call, Running, 1, None), parent, {Claim(c, d)});
    t := AdvanceStep(s2, d);
    path := Path(s, Begin(d, call), s1, Advance(d), s2, Advance(d), t);
  }

  /** Three steps in a row. */
  lemma Path(s: State, a1: Action, s1: State, a2: Action, s2: State, a3: Action, s3: State) returns (path: seq<Action>)
    requires Next(s, a1) == Some(s1) && Next(s1, a2) == Some(s2) && Next(s2, a3) == Some(s3)
    ensures Continue(s, path) == Some(s3)
  {
    ContinueCons(s2, a3, s3, []);
    ContinueCons(s1, a2, s2, [a3] + []);
    path := [a1] + ([a2] + ([a3] + []));
    ContinueCons(s, a1, s1, [a2] + ([a3] + []));
  }

  /** Two steps in a row. */
  lemma Pair(s: State, a1: Action, s1: State, a2: Action, s2: State) returns (path: seq<Action>)
    requires Next(s, a1) == Some(s1) && Next(s1, a2) == Some(s2)
    ensures Continue(s, path) == Some(s2)
  {
    ContinueCons(s1, a2, s2, []);
    path := [a1] + ([a2] + []);
    ContinueCons(s, a1, s1, [a2] + []);
  }

  /** From the look to the inside of the agent. */
  lemma GoesIn(s0: State, s: State, d: DispatcherId, call: Spec, parent: Run) returns (path: seq<Action>, t: State)
    requires call.candidate != call.key.parent && Own(call.candidate) !! s0.st.journal.Keys && parent.state.Running?
    requires Along(s0, s, d, call, SawParent(call.candidate, 1, parent.state, parent.version),
                   NewChild(call, Running, 1, None), parent, {Claim(call.candidate, d)}, multiset{})
    ensures Continue(s, path) == Some(t)
    ensures Along(s0, t, d, call, InAgent(call.candidate, 1, parent.version + 1), NewChild(call, Running, 1, None),
                  parent.(state := WaitingChild, version := parent.version + 1),
                  {Claim(call.candidate, d)} + {WaitChild(call.candidate)}, multiset{call.candidate})
  {
    var c, child := call.candidate, NewChild(call, Running, 1, None);
    assert WaitChild(c) in Own(c);
    Waits(s0, s, d, call, child, parent, {Claim(c, d)});
    var s1 := AdvanceStep(s, d);
    StartsAgent(s0, s1, d, call, parent.version + 1, child,
                parent.(state := WaitingChild, version := parent.version + 1),
                {Claim(c, d)} + {WaitChild(c)});
    t := AdvanceStep(s1, d);
    path := Pair(s, Advance(d), s1, Advance(d), t);
  }

  /** The release of the parent. */
  lemma LetsGoOn(s0: State, s: State, d: DispatcherId, call: Spec, outcome: Outcome, child: Run, parent: Run,
                 cmds: set<Command>)
    returns (path: seq<Action>, t: State)
    requires call.candidate != call.key.parent && Own(call.candidate) !! s0.st.journal.Keys
        && parent.state.WaitingChild?
    requires ChildDoneQueue(call.candidate) !in cmds && ChildDoneRun(call.candidate) !in cmds
    requires Along(s0, s, d, call, Resuming(call.candidate, parent.version, outcome), child, parent, cmds,
                   multiset{call.candidate})
    ensures Continue(s, path) == Some(t)
    ensures Ended(s0, t, d, call, outcome, child, parent.(state := Running, version := parent.version + 2),
                  multiset{call.candidate})
  {
    var c := call.candidate;
    assert ChildDoneQueue(c) in Own(c) && ChildDoneRun(c) in Own(c);
    Queues(s0, s, d, call, outcome, child, parent, cmds);
    var s1 := AdvanceStep(s, d);
    Reruns(s0, s1, d, call, outcome, child, parent.(state := Queued, version := parent.version + 1),
           cmds + {ChildDoneQueue(c)});
    t := AdvanceStep(s1, d);
    path := Pair(s, Advance(d), s1, Advance(d), t);
  }

  /** The agent returns, and the rest of the dispatch. */
  lemma ReturnsHome(s0: State, s: State, d: DispatcherId, call: Spec, parent: Run, cmds: set<Command>,
                    output: AgentOutput)
    returns (path: seq<Action>, t: State)
    requires call.candidate != call.key.parent && Own(call.candidate) !! s0.st.journal.Keys
        && parent.state.WaitingChild?
    requires cmds == {Claim(call.candidate, d), WaitChild(call.candidate)}
    requires Along(s0, s, d, call, InAgent(call.candidate, 1, parent.version), NewChild(call, Running, 1, None),
                   parent, cmds, multiset{call.candidate})
    ensures Continue(s, path) == Some(t)
    ensures var reply := Returned(Reply(call.key.parent, call.candidate, call.key.target, FirstReport(output)));
            var status, patch := RuntimeStatus(output), Some(Envelope(output));
            && (status == "waiting_approval" ==>
                  Ended(s0, t, d, call, reply, NewChild(call, WaitingApproval, 2, patch), parent,
                        multiset{call.candidate}))
            && (status != "waiting_approval" ==>
                  Ended(s0, t, d, call, reply,
                        NewChild(call, if status == "exhausted" then Exhausted else Succeeded, 2, patch),
                        parent.(state := Running, version := parent.version + 2), multiset{call.candidate}))
  {
    AgentReturnsTo(s0, s, d, call, parent.version, NewChild(call, Running, 1, None), parent, cmds, output);
    var v := Apply(s, AgentReturns(d, output));
    Records(s0, v, d, call, parent.version, parent, cmds, output);
    t := AdvanceStep(v, d);
    path := Pair(s, AgentReturns(d, output), v, Advance(d), t);
    var status := RuntimeStatus(output);
    if status != "waiting_approval" {
      var reply := Returned(FirstReply(call.key.parent, call.candidate, call.key.target, output));
      var more, last := LetsGoOn(
          s0, t, d, call, reply,
          NewChild(call, if status == "exhausted" then Exhausted else Succeeded, 2, Some(Envelope(output))),
          parent, cmds + {Finish(call.candidate)});
      ContinueThen(s, path, t, more);
      path, t := path + more, last;
    }
  }

  /** The agent raises, and the rest of the dispatch. */
  lemma RaisesHome(s0: State, s: State, d: DispatcherId, call: Spec, parent: Run, cmds: set<Command>)
    returns (path: seq<Action>, t: State)
    requires call.candidate != call.key.parent && Own(call.candidate) !! s0.st.journal.Keys
        && parent.state.WaitingChild?
    requires cmds == {Claim(call.candidate, d), WaitChild(call.candidate)}
    requires Along(s0, s, d, call, InAgent(call.candidate, 1, parent.version), NewChild(call, Running, 1, None),
                   parent, cmds, multiset{call.candidate})
    ensures Continue(s, path) == Some(t)
    ensures Ended(s0, t, d, call, Raised(AgentError), NewChild(call, Failed, 2, None),
                  parent.(state := Running, version := parent.version + 2), multiset{call.candidate})
  {
    AgentRaisesTo(s0, s, d, call, parent.version, NewChild(call, Running, 1, None), parent, cmds);
    var v := Apply(s, AgentRaises(d));
    assert Fail(call.candidate) in Own(call.candidate);
    FailsChild(s0, v, d, call, parent.version, parent, cmds);
    var w := AdvanceStep(v, d);
    path := Pair(s, AgentRaises(d), v, Advance(d), w);
    var more, last := LetsGoOn(s0, w, d, call, Raised(AgentError), NewChild(call, Failed, 2, None), parent,
                               cmds + {Fail(call.candidate)});
    ContinueThen(s, path, w, more);
    path, t := path + more, last;
  }

  /** The parent is seen not running, and the rest of the dispatch. */
  lemma RefusedHome(s0: State, s: State, d: DispatcherId, call: Spec, parent: Run) returns (path: seq<Action>, t: State)
    requires call.candidate != call.key.parent && Own(call.candidate) !! s0.st.journal.Keys && !parent.state.Running?
    requires Along(s0, s, d, call, SawParent(call.candidate, 1, parent.state, parent.version),
                   NewChild(call, Running, 1, None), parent, {Claim(call.candidate, d)}, multiset{})
    ensures Continue(s, path) == Some(t)
    ensures Ended(s0, t, d, call, Raised(ParentNotRunning), NewChild(call, Failed, 2, None), parent, multiset{})
  {
    assert ParentUnavailable(call.candidate) in Own(call.candidate);
    Refuses(s0, s, d, call, NewChild(call, Running, 1, None), parent, {Claim(call.candidate, d)});
    var v := AdvanceStep(s, d);
    FailsUnheard(s0, v, d, call, parent, {Claim(call.candidate, d)});
    t := AdvanceStep(v, d);
    path := Pair(s, Advance(d), v, Advance(d), t);
  }

  // ---- whole dispatches ----

  /** A first call whose commands are unused. */
  ghost predicate Ready(s: State, d: DispatcherId, call: Spec) {
    && FirstCall(s, d, call) && call.candidate != call.key.parent
    && Claim(call.candidate, d) !in s.st.journal && Own(call.candidate) !! s.st.journal.Keys
  }

  lemma FirstCallIsReady(states: seq<State>, actions: seq<Action>, i: nat, d: DispatcherId, call: Spec)
    requires IsRun(states, actions) && i < |states| && FirstCall(states[i], d, call)
    ensures Ready(states[i], d, call)
  {
    RunKeepsInv(states, actions, i);
    RunKeepsEnding(states, actions, i);
    CommandsAreNew(states[i], d, call.candidate);
  }

  lemma ReturnsFromLook(s0: State, s: State, d: DispatcherId, call: Spec, parent: Run, output: AgentOutput)
    returns (path: seq<Action>, t: State)
    requires call.candidate != call.key.parent && Own(call.candidate) !! s0.st.journal.Keys && parent.state.Running?
    requires Along(s0, s, d, call, SawParent(call.candidate, 1, parent.state, parent.version),
                   NewChild(call, Running, 1, None), parent, {Claim(call.candidate, d)}, multiset{})
    ensures Continue(s, path) == Some(t)
    ensures var reply := Returned(Reply(call.key.parent, call.candidate, call.key.target, FirstReport(output)));
            var status, patch := RuntimeStatus(output), Some(Envelope(output));
            && (status == "waiting_approval" ==>
                  Ended(s0, t, d, call, reply, NewChild(call, WaitingApproval, 2, patch),
                        parent.(state := WaitingChild, version := parent.version + 1), multiset{call.candidate}))
            && (status != "waiting_approval" ==>
                  Ended(s0, t, d, call, reply,
                        NewChild(call, if status == "exhausted" then Exhausted else Succeeded, 2, patch),
                        parent.(state := Running, version := parent.version + 3), multiset{call.candidate}))
  {
    hide Along, Ended, Continue;
    var first, u := GoesIn(s0, s, d, call, parent);
    var more;
    more, t := ReturnsHome(s0, u, d, call, parent.(state := WaitingChild, version := parent.version + 1),
                           {Claim(call.candidate, d)} + {WaitChild(call.candidate)}, output);
    ContinueThen(s, first, u, more);
    path := first + more;
  }

  lemma RaisesFromLook(s0: State, s: State, d: DispatcherId, call: Spec, parent: Run)
    returns (path: seq<Action>, t: State)
    requires call.candidate != call.key.parent && Own(call.candidate) !! s0.st.journal.Keys && parent.state.Running?
    requires Along(s0, s, d, call, SawParent(call.candidate, 1, parent.state, parent.version),
                   NewChild(call, Running, 1, None), parent, {Claim(call.candidate, d)}, multiset{})
    ensures Continue(s, path) == Some(t)
    ensures Ended(s0, t, d, call, Raised(AgentError), NewChild(call, Failed, 2, None),
                  parent.(state := Running, version := parent.version + 3), multiset{call.candidate})
  {
    hide Along, Ended, Continue;
    var first, u := GoesIn(s0, s, d, call, parent);
    var more;
    more, t := RaisesHome(s0, u, d, call, parent.(state := WaitingChild, version := parent.version + 1),
                          {Claim(call.candidate, d)} + {WaitChild(call.candidate)});
    ContinueThen(s, first, u, more);
    path := first + more;
  }

  lemma ReturnsFrom(s: State, d: DispatcherId, call: Spec, output: AgentOutput) returns (path: seq<Action>, t: State)
    requires Ready(s, d, call) && s.st.runs[call.key.parent].state.Running?
    ensures Continue(s, path) == Some(t)
    ensures var parent := s.st.runs[call.key.parent];
            var reply := Returned(Reply(call.key.parent, call.candidate, call.key.target, FirstReport(output)));
            var status, patch := RuntimeStatus(output), Some(Envelope(output));
            && (status == "waiting_approval" ==>
                  Ended(s, t, d, call, reply, NewChild(call, WaitingApproval, 2, patch),
                        parent.(state := WaitingChild, version := parent.version + 1), multiset{call.candidate}))
            && (status != "waiting_approval" ==>
                  Ended(s, t, d, call, reply,
                        NewChild(call, if status == "exhausted" then Exhausted else Succeeded, 2, patch),
                        parent.(state := Running, version := parent.version + 3), multiset{call.candidate}))
  {
    hide Along, Ended, Continue;
    var first, u := Arrives(s, d, call);
    var more;
    more, t := ReturnsFromLook(s, u, d, call, s.st.runs[call.key.parent], output);
    ContinueThen(s, first, u, more);
    path := first + more;
  }

  lemma RaisesFrom(s: State, d: DispatcherId, call: Spec) returns (path: seq<Action>, t: State)
    requires Ready(s, d, call) && s.st.runs[call.key.parent].state.Running?
    ensures Continue(s, path) == Some(t)
    ensures var parent := s.st.runs[call.key.parent];
            Ended(s, t, d, call, Raised(AgentError), NewChild(call, Failed, 2, None),
                  parent.(state := Running, version := parent.version + 3), multiset{call.candidate})
  {
    hide Along, Ended, Continue;
    var first, u := Arrives(s, d, call);
    var more;
    more, t := RaisesFromLook(s, u, d, call, s.st.runs[call.key.parent]);
    ContinueThen(s, first, u, more);
    path := first + more;
  }

  /** In any reachable state, a running run delegates for the first time with a key, and nobody disturbs
      it. The agent is entered once. Whatever it returns, the report tells it and is stored with the child;
      the child has ended as reported, successfully unless "exhausted" is stated, and the parent runs
      again; or the child waits for an approval, and the parent for the child. No other run changes. */
  lemma UndisturbedDispatch(states: seq<State>, actions: seq<Action>, i: nat, d: DispatcherId, call: Spec,
                            output: AgentOutput)
    returns (path: seq<Action>, t: State, report: Report, envelope: Object)
    requires IsRun(states, actions) && i < |states| && FirstCall(states[i], d, call)
    requires states[i].st.runs[call.key.parent].state.Running?
    ensures Continue(states[i], path) == Some(t)
    ensures Tells(output, report) && Stores(envelope, report) && ReplayReport(envelope, report.status) == report
    ensures var s, parent := states[i], states[i].st.runs[call.key.parent];
            var reply := Returned(Reply(call.key.parent, call.candidate, call.key.target, report));
            && (report.status == "waiting_approval" ==>
                  Ended(s, t, d, call, reply, NewChild(call, WaitingApproval, 2, Some(envelope)),
                        parent.(state := WaitingChild, version := parent.version + 1), multiset{call.candidate}))
            && (report.status != "waiting_approval" ==>
                  Ended(s, t, d, call, reply,
                        NewChild(call, if report.status == "exhausted" then Exhausted else Succeeded, 2,
                                 Some(envelope)),
                        parent.(state := Running, version := parent.version + 3), multiset{call.candidate}))
  {
    hide Ended, Continue, Envelope, Tells, Stores, ReplayReport;
    FirstCallIsReady(states, actions, i, d, call);
    path, t := ReturnsFrom(states[i], d, call, output);
    report, envelope := FirstReport(output), Envelope(output);
    FirstReportTells(output);
    EnvelopeHolds(output);
    ReplayReadsBackFirstReport(output, report.status);
  }

  /** If the agent raises instead, the child has failed and the parent runs again. */
  lemma FailedDispatch(states: seq<State>, actions: seq<Action>, i: nat, d: DispatcherId, call: Spec)
    returns (path: seq<Action>, t: State)
    requires IsRun(states, actions) && i < |states| && FirstCall(states[i], d, call)
    requires states[i].st.runs[call.key.parent].state.Running?
    ensures Continue(states[i], path) == Some(t)
    ensures var s, parent := states[i], states[i].st.runs[call.key.parent];
            Ended(s, t, d, call, Raised(AgentError), NewChild(call, Failed, 2, None),
                  parent.(state := Running, version := parent.version + 3), multiset{call.candidate})
  {
    FirstCallIsReady(states, actions, i, d, call);
    path, t := RaisesFrom(states[i], d, call);
  }

  /** If the parent is not running, the child fails, nobody enters the agent and the parent is left alone. */
  lemma RefusedDispatch(states: seq<State>, actions: seq<Action>, i: nat, d: DispatcherId, call: Spec)
    returns (path: seq<Action>, t: State)
    requires IsRun(states, actions) && i < |states| && FirstCall(states[i], d, call)
    requires !states[i].st.runs[call.key.parent].state.Running?
    ensures Continue(states[i], path) == Some(t)
    ensures Ended(states[i], t, d, call, Raised(ParentNotRunning), NewChild(call, Failed, 2, None),
                  states[i].st.runs[call.key.parent], multiset{})
  {
    FirstCallIsReady(states, actions, i, d, call);
    var s := states[i];
    var first, u := Arrives(s, d, call);
    var more, w := RefusedHome(s, u, d, call, s.st.runs[call.key.parent]);
    ContinueThen(s, first, u, more);
    path, t := first + more, w;
  }
}
