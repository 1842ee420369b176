/** How a dispatch ends, over every run: its child has ended as reported and its parent runs again, or
    the child waits for an approval, or somebody else has moved the run that the last step was to move. */
module DelegationOutcomes {
  import opened Wrappers
  import opened DispatchResult
  import opened RunStore
  import opened Delegation
  import opened DelegationInvariant
  import opened DelegationSteps
  import opened DelegationClaims
  import opened DelegationTheorems

  /** The command that runs a parent again comes after the one that queues it. */
  ghost predicate RerunsOk(st: Store) {
    forall c :: ChildDoneRun(c) in st.journal ==> Released(st, c)
  }

  /** Whoever could not make its parent wait has failed its child. */
  ghost predicate RefusalOk(st: Store, c: RunId) {
    ParentUnavailable(c) in st.journal ==> IsChild(st, c) && st.runs[c].state.Failed?
  }

  /** Until the parent is moved by somebody else, it is as its dispatcher has queued it. */
  ghost predicate RequeuedOk(s: State, d: DispatcherId) {
    At(s, d) && s.pcs[d].Requeued? ==>
      var c, pv, p := s.pcs[d].child, s.pcs[d].pv, s.calls[d].key.parent;
      && ChildDoneRun(c) !in s.st.journal && Released(s.st, c)
      && p in s.st.runs && pv <= s.st.runs[p].version
      && (pv == s.st.runs[p].version ==> s.st.runs[p].state.Queued?)
  }

  /** What is handed on after the child has ended: a reply that does not wait for an approval, or the
      failure of the agent, the child having failed. */
  ghost predicate HandedOnOk(s: State, d: DispatcherId) {
    At(s, d) && Settling(s.pcs[d]) ==>
      match s.pcs[d].outcome
      case Returned(reply) => reply.report.status != "waiting_approval"
      case Raised(error) => error == AgentError && InState(s.st, s.pcs[d].child, Failed)
  }

  ghost predicate InState(st: Store, r: RunId, state: RunState) { r in st.runs && st.runs[r].state == state }

  ghost predicate EndingOk(s: State) {
    RerunsOk(s.st) && (forall c :: RefusalOk(s.st, c)) && forall d :: RequeuedOk(s, d) && HandedOnOk(s, d)
  }

  // ---- what every step keeps ----

  lemma StepKeepsReruns(s: State, a: Action)
    requires Inv(s) && EndingOk(s) && Enabled(s, a)
    ensures RerunsOk(Apply(s, a).st)
  {
    JournalGrows(s, a);
    if a.Advance? {
      assert PcOk(s, a.d) && HolderOk(s.st, s.pcs[a.d].child) && RequeuedOk(s, a.d);
      AdvanceKeepsReruns(s, a.d);
    } else if a.Begin? {
      BeginAddsOnly(s, a.d, a.call);
    }
  }

  lemma AdvanceKeepsReruns(s: State, d: DispatcherId)
    requires PcOk(s, d) && At(s, d) && !s.pcs[d].InAgent? && HolderOk(s.st, s.pcs[d].child)
    requires RerunsOk(s.st) && RequeuedOk(s, d)
    ensures RerunsOk(AdvanceStep(s, d).st)
  {
    var moved, r, to, cmd, patch := AdvanceMoves(s, d);
  }

  lemma StepKeepsRefusal(s: State, a: Action, c: RunId)
    requires Inv(s) && RefusalOk(s.st, c) && Enabled(s, a)
    ensures RefusalOk(Apply(s, a).st, c)
  {
    if ParentUnavailable(c) in s.st.journal {
      SettledRunKept(s, a, c);
    } else if a.Advance? {
      assert PcOk(s, a.d) && HolderOk(s.st, s.pcs[a.d].child);
      AdvanceKeepsRefusal(s, a.d, c);
    } else if a.Begin? {
      BeginAddsOnly(s, a.d, a.call);
    }
  }

  lemma AdvanceKeepsRefusal(s: State, d: DispatcherId, c: RunId)
    requires PcOk(s, d) && At(s, d) && !s.pcs[d].InAgent? && HolderOk(s.st, s.pcs[d].child)
    requires ParentUnavailable(c) !in s.st.journal
    ensures RefusalOk(AdvanceStep(s, d).st, c)
  {
    var moved, r, to, cmd, patch := AdvanceMoves(s, d);
  }

  /** A step leaves a run as it is, or moves it to a later version. */
  lemma StepMoves(s: State, a: Action, p: RunId)
    requires Inv(s) && Enabled(s, a) && p in s.st.runs
    ensures p in Apply(s, a).st.runs
    ensures Apply(s, a).st.runs[p] == s.st.runs[p] || s.st.runs[p].version < Apply(s, a).st.runs[p].version
  {
    if a.Advance? {
      assert PcOk(s, a.d) && HolderOk(s.st, s.pcs[a.d].child);
      AdvanceMovesOn(s, a.d, p);
    } else if a.Begin? {
      BeginAddsOnly(s, a.d, a.call);
    }
  }

  lemma AdvanceMovesOn(s: State, d: DispatcherId, p: RunId)
    requires PcOk(s, d) && At(s, d) && !s.pcs[d].InAgent? && HolderOk(s.st, s.pcs[d].child) && p in s.st.runs
    ensures var t := AdvanceStep(s, d);
            p in t.st.runs && (t.st.runs[p] == s.st.runs[p] || s.st.runs[p].version < t.st.runs[p].version)
  {
    var moved, r, to, cmd, patch := AdvanceMoves(s, d);
  }

  /** Nobody else issues the command that runs the parent again. */
  lemma OthersRerunNot(s: State, a: Action, d: DispatcherId)
    requires Inv(s) && Enabled(s, a) && Aside(a, d) && At(s, d) && s.pcs[d].Requeued?
    ensures ChildDoneRun(s.pcs[d].child) in Apply(s, a).st.journal ==> ChildDoneRun(s.pcs[d].child) in s.st.journal
  {
    if a.Advance? {
      assert PcOk(s, d) && PcOk(s, a.d) && HolderOk(s.st, s.pcs[a.d].child);
      OtherAdvanceRerunsNot(s, a.d, d);
    } else if a.Begin? {
      BeginAddsOnly(s, a.d, a.call);
    }
  }

  lemma OtherAdvanceRerunsNot(s: State, e: DispatcherId, d: DispatcherId)
    requires PcOk(s, d) && PcOk(s, e) && At(s, e) && At(s, d) && e != d && !s.pcs[e].InAgent? && s.pcs[d].Requeued?
    requires HolderOk(s.st, s.pcs[e].child)
    ensures var c := s.pcs[d].child; ChildDoneRun(c) in AdvanceStep(s, e).st.journal ==> ChildDoneRun(c) in s.st.journal
  {
    var moved, r, to, cmd, patch := AdvanceMoves(s, e);
  }

  lemma OthersKeepEnding(s: State, a: Action, d: DispatcherId)
    requires Inv(s) && Enabled(s, a) && Aside(a, d) && RequeuedOk(s, d) && HandedOnOk(s, d) && At(s, d)
    ensures RequeuedOk(Apply(s, a), d) && HandedOnOk(Apply(s, a), d)
  {
    AsideStays(s, a, d);
    JournalGrows(s, a);
    assert PcOk(s, d);
    if s.pcs[d].Requeued? {
      OthersRerunNot(s, a, d);
      StepMoves(s, a, s.calls[d].key.parent);
    }
    if Settling(s.pcs[d]) { SettledRunKept(s, a, s.pcs[d].child); }
  }

  lemma OwnKeepsEnding(s: State, d: DispatcherId)
    requires PcOk(s, d) && At(s, d) && !s.pcs[d].InAgent? && RerunsOk(s.st) && HandedOnOk(s, d)
    requires HolderOk(s.st, s.pcs[d].child) && s.calls[d].key.parent != s.pcs[d].child
    ensures RequeuedOk(AdvanceStep(s, d), d)
    ensures HandedOnOk(AdvanceStep(s, d), d)
  {
  }

  lemma QuietKeepsEnding(s: State, a: Action)
    requires Enabled(s, a) && (a.Begin? || a.AgentReturns? || a.AgentRaises? || a.Crash?)
    ensures RequeuedOk(Apply(s, a), a.d) && HandedOnOk(Apply(s, a), a.d)
  {
    if a.Begin? { BeginAddsOnly(s, a.d, a.call); }
  }

  lemma StepKeepsEnding(s: State, a: Action)
    requires Inv(s) && EndingOk(s) && Enabled(s, a)
    ensures EndingOk(Apply(s, a))
  {
    StepKeepsReruns(s, a);
    forall c ensures RefusalOk(Apply(s, a).st, c) { StepKeepsRefusal(s, a, c); }
    forall d ensures RequeuedOk(Apply(s, a), d) && HandedOnOk(Apply(s, a), d) {
      assert PcOk(s, d) && RequeuedOk(s, d) && HandedOnOk(s, d);
      if Aside(a, d) {
        AsideStays(s, a, d);
        if At(s, d) { OthersKeepEnding(s, a, d); }
      } else if a.Advance? {
        assert HolderOk(s.st, s.pcs[d].child);
        OwnKeepsEnding(s, d);
      } else {
        QuietKeepsEnding(s, a);
      }
    }
  }

  lemma {:induction false} RunKeepsEnding(states: seq<State>, actions: seq<Action>, i: nat)
    requires IsRun(states, actions) && i < |states|
    ensures EndingOk(states[i])
    decreases i
  {
    if i > 0 {
      RunKeepsEnding(states, actions, i - 1);
      RunKeepsInv(states, actions, i - 1);
      assert Follows(states, actions, i - 1);
      StepKeepsEnding(states[i - 1], actions[i - 1]);
    }
  }

  // ---- the last step of a dispatch ----

  /** The run the next step of `d`, past the wait, is to move, is still as `d` knows it. */
  ghost predicate Untouched(s: State, d: DispatcherId)
    requires At(s, d) && Bound(s.pcs[d])
  {
    if PastWait(s.pcs[d]) then VersionOf(s.st, s.pcs[d].child) == s.pcs[d].v
    else VersionOf(s.st, s.calls[d].key.parent) == s.pcs[d].pv
  }

  /** A step that ends the dispatch of a child whose agent was entered: unless somebody else has moved
      the run in question, the reply or the agent's failure is handed on, the child has ended
      accordingly, and the parent runs, or the child waits for an approval. */
  ghost predicate EndsWell(s: State, t: State, d: DispatcherId)
    requires At(s, d) && Bound(s.pcs[d]) && d in t.pcs && t.pcs[d].Done?
  {
    var c, p := s.pcs[d].child, s.calls[d].key.parent;
    match t.pcs[d].outcome
    case Returned(reply) =>
      && reply.run == c && reply.parent == p && c in t.st.runs
      && (if reply.report.status == "waiting_approval" then
            InState(t.st, c, WaitingApproval)
          else
            && InState(t.st, p, Running)
            && InState(t.st, c, if reply.report.status == "exhausted" then Exhausted else Succeeded))
    case Raised(error) =>
      error == AgentError && InState(t.st, c, Failed) && InState(t.st, p, Running)
  }

  lemma RecordingEnds(s: State, d: DispatcherId)
    requires PcOk(s, d) && At(s, d) && s.pcs[d].AgentDone? && s.calls[d].key.parent != s.pcs[d].child
    requires AdvanceStep(s, d).pcs[d].Done?
    ensures if Untouched(s, d) then EndsWell(s, AdvanceStep(s, d), d)
            else AdvanceStep(s, d).pcs[d] == Done(Raised(VersionConflict)) && AdvanceStep(s, d).st == s.st
  {
  }

  lemma FailingEnds(s: State, d: DispatcherId)
    requires PcOk(s, d) && At(s, d) && s.pcs[d].AgentFailed? && AdvanceStep(s, d).pcs[d].Done?
    ensures !Untouched(s, d) && AdvanceStep(s, d).pcs[d] == Done(Raised(VersionConflict))
        && AdvanceStep(s, d).st == s.st
  {
  }

  lemma ReleasingEnds(s: State, d: DispatcherId)
    requires PcOk(s, d) && At(s, d) && s.pcs[d].Resuming? && HolderOk(s.st, s.pcs[d].child)
    requires AdvanceStep(s, d).pcs[d].Done?
    ensures !Untouched(s, d) && AdvanceStep(s, d).pcs[d] == Done(Raised(VersionConflict))
        && AdvanceStep(s, d).st == s.st
  {
  }

  lemma RerunningEnds(s: State, d: DispatcherId)
    requires PcOk(s, d) && At(s, d) && s.pcs[d].Requeued? && s.calls[d].key.parent != s.pcs[d].child
    requires RequeuedOk(s, d) && HandedOnOk(s, d) && ReplyOk(s, d)
    ensures if Untouched(s, d) then EndsWell(s, AdvanceStep(s, d), d)
            else AdvanceStep(s, d).pcs[d] == Done(Raised(VersionConflict)) && AdvanceStep(s, d).st == s.st
  {
  }

  /** In every run, when a dispatch past its wait ends, by its own step: it ends well if and only if
      nobody else has moved the run that this step is about; otherwise it raises the conflict and
      changes nothing. */
  lemma DispatchEnds(states: seq<State>, actions: seq<Action>, i: nat, d: DispatcherId)
    requires IsRun(states, actions) && i < |actions| && actions[i] == Advance(d)
    requires At(states[i], d) && Bound(states[i].pcs[d])
    requires d in states[i + 1].pcs && states[i + 1].pcs[d].Done?
    ensures if Untouched(states[i], d) then EndsWell(states[i], states[i + 1], d)
            else states[i + 1].pcs[d] == Done(Raised(VersionConflict)) && states[i + 1].st == states[i].st
  {
    RunKeepsInv(states, actions, i);
    RunKeepsEnding(states, actions, i);
    RunKeepsReplies(states, actions, i, d);
    assert Follows(states, actions, i);
    var s := states[i];
    assert PcOk(s, d) && RequeuedOk(s, d) && HandedOnOk(s, d) && HolderOk(s.st, s.pcs[d].child);
    match s.pcs[d]
    case HoldsParent(_, _, _) =>
    case AgentFailed(_, _, _) => FailingEnds(s, d);
    case AgentDone(_, _, _, _) => RecordingEnds(s, d);
    case Resuming(_, _, _) => ReleasingEnds(s, d);
    case Requeued(_, _, _) => RerunningEnds(s, d);
  }

  /** The same before the wait: a dispatcher that cannot make the parent wait fails its child, unless
      somebody else has moved the child since the claim. */
  lemma RefusalEnds(states: seq<State>, actions: seq<Action>, i: nat, d: DispatcherId)
    requires IsRun(states, actions) && i < |actions| && actions[i] == Advance(d)
    requires At(states[i], d) && states[i].pcs[d].Refused?
    ensures var s, t, c := states[i], states[i + 1], states[i].pcs[d].child;
            && t.starts == s.starts && d in t.pcs
            && (if VersionOf(s.st, c) == s.pcs[d].v then
                  t.pcs[d] == Done(Raised(s.pcs[d].why)) && InState(t.st, c, Failed)
                else
                  t.st == s.st && t.pcs[d].Done? && t.pcs[d].outcome.Raised?)
  {
    RunKeepsInv(states, actions, i);
    RunKeepsEnding(states, actions, i);
    assert RefusalOk(states[i].st, states[i].pcs[d].child);
    assert Follows(states, actions, i);
    assert PcOk(states[i], d);
  }
}
