/** First claims: a parent that cannot come to run again never does, and as long as it can, a
    child that has not made it wait has one claimant at most. With this the invariant is whole. */
module DelegationClaims {
  import opened Wrappers
  import opened DispatchResult
  import opened RunStore
  import opened Delegation
  import opened DelegationInvariant
  import opened DelegationSteps

  // ---- what a step moves ----

  /** What a dispatcher's step does to the store: nothing, or one legal move, of the child or of
      the parent. */
  lemma AdvanceMoves(s: State, d: DispatcherId)
    returns (moved: bool, r: RunId, to: RunState, cmd: Command, patch: Option<Object>)
    requires PcOk(s, d) && At(s, d) && !s.pcs[d].InAgent?
    requires HolderOk(s.st, s.pcs[d].child)
    ensures !moved ==> AdvanceStep(s, d).st == s.st
    ensures moved ==>
      && r in s.st.runs && Allowed(s.st.runs[r].state, to) && !s.st.runs[r].state.WaitingApproval?
      && AdvanceStep(s, d).st == Moved(s.st, r, to, cmd, patch)
      && (cmd.Claim? ==> s.pcs[d].FoundQueued? && cmd == Claim(s.pcs[d].child, d))
      && (cmd.ChildDoneRun? ==> s.pcs[d].Requeued? && cmd == ChildDoneRun(s.pcs[d].child))
      && (cmd.ParentUnavailable? ==> to.Failed? && r == cmd.child && r == s.pcs[d].child)
      && (to.WaitingApproval? ==> r == s.pcs[d].child && PastWait(s.pcs[d]) && s.pcs[d].v == s.st.runs[r].version)
      && (MovesChild(s, d, r, to) || MovesParent(s, d, r, to))
  {
    var c := s.pcs[d].child;
    var p := s.calls[d].key.parent;
    moved, r, to, cmd, patch := AdvanceStep(s, d).st != s.st, c, Failed, ParentUnavailable(c), None;
    match s.pcs[d]
    case FoundQueued(_, _) => to, cmd := Running, Claim(c, d);
    case SawParent(_, _, _, _) => r, to, cmd := p, WaitingChild, WaitChild(c);
    case AgentFailed(_, _, _) => cmd := Fail(c);
    case AgentDone(_, _, _, output) =>
      var status := RuntimeStatus(output);
      to, cmd, patch := RecordedState(status), RecordCommand(c, status), Some(Envelope(output));
    case Resuming(_, _, _) => r, to, cmd := p, Queued, ChildDoneQueue(c);
    case Requeued(_, _, _) => r, to, cmd := p, Running, ChildDoneRun(c);
    case _ =>
  }

  ghost predicate MovesChild(s: State, d: DispatcherId, r: RunId, to: RunState)
    requires At(s, d) && r in s.st.runs
  {
    && r == s.pcs[d].child && !to.Queued?
    && (if s.pcs[d].FoundQueued? then s.st.runs[r].state.Queued? else to.Failed? || PastWait(s.pcs[d]))
  }

  ghost predicate MovesParent(s: State, d: DispatcherId, r: RunId, to: RunState)
    requires At(s, d)
  {
    r == s.calls[d].key.parent && (to.Queued? ==> s.pcs[d].Resuming?)
  }

  lemma VersionsGrow(s: State, a: Action, c: RunId)
    requires Core(s) && EnabledBesideDispatchers(s, a) && c in s.st.runs
    ensures c in Apply(s, a).st.runs && s.st.runs[c].version <= Apply(s, a).st.runs[c].version
    ensures Apply(s, a).st.runs[c].key == s.st.runs[c].key
  {
    if a.Advance? {
      assert PcOk(s, a.d) && HolderOk(s.st, s.pcs[a.d].child);
      AdvanceGrowsVersions(s, a.d, c);
    } else if a.Begin? {
      BeginAddsOnly(s, a.d, a.call);
    }
  }

  lemma AdvanceGrowsVersions(s: State, d: DispatcherId, c: RunId)
    requires PcOk(s, d) && At(s, d) && !s.pcs[d].InAgent? && HolderOk(s.st, s.pcs[d].child) && c in s.st.runs
    ensures var t := AdvanceStep(s, d);
            && c in t.st.runs && s.st.runs[c].version <= t.st.runs[c].version
            && t.st.runs[c].key == s.st.runs[c].key
  {
    var moved, r, to, cmd, patch := AdvanceMoves(s, d);
  }

  lemma JournalGrows(s: State, a: Action)
    requires Core(s) && EnabledBesideDispatchers(s, a)
    ensures s.st.journal.Keys <= Apply(s, a).st.journal.Keys
  {
    if a.Advance? {
      assert PcOk(s, a.d) && HolderOk(s.st, s.pcs[a.d].child);
      AdvanceGrowsJournal(s, a.d);
    } else if a.Begin? {
      BeginAddsOnly(s, a.d, a.call);
    }
  }

  lemma AdvanceGrowsJournal(s: State, d: DispatcherId)
    requires PcOk(s, d) && At(s, d) && !s.pcs[d].InAgent? && HolderOk(s.st, s.pcs[d].child)
    ensures s.st.journal.Keys <= AdvanceStep(s, d).st.journal.Keys
  {
    var moved, r, to, cmd, patch := AdvanceMoves(s, d);
  }

  /** `e` is not the dispatcher that takes the step. */
  ghost predicate Aside(a: Action, e: DispatcherId) {
    a.NewRun? || a.MoveOutside? || a.Reconcile? || a.d != e
  }

  ghost predicate SameFor(s: State, t: State, e: DispatcherId) {
    && (e in t.pcs <==> e in s.pcs) && (e in s.pcs ==> t.pcs[e] == s.pcs[e])
    && (e in t.calls <==> e in s.calls) && (e in s.calls ==> t.calls[e] == s.calls[e])
  }

  lemma OthersStayPut(s: State, d: DispatcherId, e: DispatcherId)
    requires At(s, d) && e != d
    ensures SameFor(s, AdvanceStep(s, d), e)
  {
  }

  lemma AsideStays(s: State, a: Action, e: DispatcherId)
    requires EnabledBesideDispatchers(s, a) && Aside(a, e)
    ensures SameFor(s, Apply(s, a), e)
  {
    if a.Advance? {
      OthersStayPut(s, a.d, e);
    } else if a.Begin? {
      BeginAddsOnly(s, a.d, a.call);
    }
  }

  // ---- runs that cannot run again ----

  lemma OwnReleasedBefore(s: State, d: DispatcherId, p: RunId)
    requires PcOk(s, d) && At(s, d) && !s.pcs[d].InAgent? && Releases(AdvanceStep(s, d), d, p)
    requires p in s.st.runs && !s.st.runs[p].state.Running?
    ensures Releases(s, d, p)
  {
  }

  lemma QuietReleasedBefore(s: State, a: Action, p: RunId)
    requires EnabledBesideDispatchers(s, a) && (a.Begin? || a.AgentReturns? || a.AgentRaises? || a.Crash?)
    requires Releases(Apply(s, a), a.d, p)
    ensures Releases(s, a.d, p)
  {
    if a.Begin? { BeginAddsOnly(s, a.d, a.call); }
  }

  /** A run that does not run is released by nobody but those who released it before. */
  lemma ReleasedBefore(s: State, a: Action, e: DispatcherId, p: RunId)
    requires Core(s) && EnabledBesideDispatchers(s, a) && Releases(Apply(s, a), e, p)
    requires p in s.st.runs && !s.st.runs[p].state.Running?
    ensures Releases(s, e, p)
  {
    assert PcOk(s, e);
    if Aside(a, e) {
      AsideStays(s, a, e);
      if !Over(s.pcs[e]) { VersionsGrow(s, a, s.pcs[e].child); }
    } else if a.Advance? {
      OwnReleasedBefore(s, e, p);
    } else {
      QuietReleasedBefore(s, a, p);
    }
  }

  lemma DeadRunKept(s: State, a: Action, p: RunId)
    requires Core(s) && EnabledBesideDispatchers(s, a) && p in s.st.runs && !MayRun(s, p)
    ensures p in Apply(s, a).st.runs
    ensures var r, r' := s.st.runs[p], Apply(s, a).st.runs[p];
            r' == r || (r'.key == r.key && (r'.state.Failed? || r'.state.Cancelled?))
  {
    if a.Advance? {
      assert PcOk(s, a.d) && HolderOk(s.st, s.pcs[a.d].child);
      AdvanceKeepsDead(s, a.d, p);
    } else if a.Begin? {
      BeginAddsOnly(s, a.d, a.call);
    }
  }

  lemma AdvanceKeepsDead(s: State, d: DispatcherId, p: RunId)
    requires PcOk(s, d) && At(s, d) && !s.pcs[d].InAgent? && HolderOk(s.st, s.pcs[d].child)
    requires p in s.st.runs && !MayRun(s, p)
    ensures p in AdvanceStep(s, d).st.runs
    ensures var r, r' := s.st.runs[p], AdvanceStep(s, d).st.runs[p];
            r' == r || (r'.key == r.key && (r'.state.Failed? || r'.state.Cancelled?))
  {
    if s.pcs[d].Resuming? { assert Releases(s, d, s.calls[d].key.parent); }
    var moved, r, to, cmd, patch := AdvanceMoves(s, d);
  }

  /** A run that cannot come to run again never can. */
  lemma StepKeepsDead(s: State, a: Action, p: RunId)
    requires Core(s) && EnabledBesideDispatchers(s, a) && p in s.st.runs && !MayRun(s, p)
    ensures p in Apply(s, a).st.runs && !MayRun(Apply(s, a), p)
  {
    DeadRunKept(s, a, p);
    var t := Apply(s, a);
    if t.st.runs[p].state.WaitingChild? {
      forall e ensures !Releases(t, e, p) {
        if Releases(t, e, p) { ReleasedBefore(s, a, e, p); }
      }
    }
  }

  // ---- first claimants ----

  /** `e` claims `c` between `s` and `t`. */
  ghost predicate ClaimsNow(s: State, t: State, e: DispatcherId, c: RunId) {
    && On(s, e, c) && s.pcs[e].FoundQueued?
    && c in s.st.runs && s.st.runs[c].state.Queued? && c in t.st.runs && t.st.runs[c].state.Running?
  }

  lemma OwnEntersBefore(s: State, d: DispatcherId, c: RunId)
    requires PcOk(s, d) && At(s, d) && !s.pcs[d].InAgent? && Enters(AdvanceStep(s, d), d, c)
    ensures Enters(s, d, c) || ClaimsNow(s, AdvanceStep(s, d), d, c)
  {
  }

  lemma QuietEntersBefore(s: State, a: Action, c: RunId)
    requires EnabledBesideDispatchers(s, a) && (a.Begin? || a.AgentReturns? || a.AgentRaises? || a.Crash?)
    ensures !Enters(Apply(s, a), a.d, c)
  {
    if a.Begin? { BeginAddsOnly(s, a.d, a.call); }
  }

  lemma EntersBefore(s: State, a: Action, e: DispatcherId, c: RunId)
    requires PcOk(s, e) && EnabledBesideDispatchers(s, a) && Enters(Apply(s, a), e, c)
    ensures Enters(s, e, c) || (a == Advance(e) && ClaimsNow(s, Apply(s, a), e, c))
  {
    if Aside(a, e) {
      AsideStays(s, a, e);
    } else if a.Advance? {
      OwnEntersBefore(s, e, c);
    } else {
      QuietEntersBefore(s, a, c);
    }
  }

  /** A child that has not made its parent wait is no parent itself. */
  lemma UnwaitedIsNoParent(s: State, d: DispatcherId, c: RunId)
    requires Rooted(s) && StartsOk(s) && PcOk(s, d) && At(s, d)
    requires IsChild(s.st, c) && !Waited(s.st, c)
    ensures s.calls[d].key.parent != c
  {
    var x := s.pcs[d].child;
    assert IsChild(s.st, x) && ParentOf(s.st, x) == s.calls[d].key.parent;
    assert c !in s.starts;
  }

  lemma AdvanceKeepsFirst(s: State, d: DispatcherId, c: RunId)
    requires PcOk(s, d) && At(s, d) && !s.pcs[d].InAgent? && HolderOk(s.st, s.pcs[d].child)
    requires IsChild(s.st, c) && !Waited(s.st, c) && StillFirst(s.st.runs[c].state)
    requires s.calls[d].key.parent != c
    ensures c in AdvanceStep(s, d).st.runs && StillFirst(AdvanceStep(s, d).st.runs[c].state)
  {
    var moved, r, to, cmd, patch := AdvanceMoves(s, d);
  }

  /** Nobody puts back the state of a child that is claimed for the first time, but a recovery. */
  lemma StepKeepsFirst(s: State, a: Action, c: RunId)
    requires Core(s) && Enabled(s, a) && Exposed(s, c) && IsChild(s.st, c) && StillFirst(s.st.runs[c].state)
    requires MayRun(s, ParentOf(s.st, c))
    ensures c in Apply(s, a).st.runs && StillFirst(Apply(s, a).st.runs[c].state)
  {
    if a.Advance? {
      assert PcOk(s, a.d) && HolderOk(s.st, s.pcs[a.d].child);
      UnwaitedIsNoParent(s, a.d, c);
      AdvanceKeepsFirst(s, a.d, c);
    } else if a.Begin? {
      BeginAddsOnly(s, a.d, a.call);
    }
  }

  lemma MayRunBefore(s: State, a: Action, c: RunId)
    requires Core(s) && EnabledBesideDispatchers(s, a) && IsChild(s.st, c)
    requires IsChild(Apply(s, a).st, c) && MayRun(Apply(s, a), ParentOf(Apply(s, a).st, c))
    ensures MayRun(s, ParentOf(s.st, c))
  {
    VersionsGrow(s, a, c);
    if !MayRun(s, ParentOf(s.st, c)) { StepKeepsDead(s, a, ParentOf(s.st, c)); }
  }

  /** The claimants of one step and of the next. */
  lemma EntrantsOkAgain(s: State, t: State, a: Action, c: RunId)
    requires IsChild(s.st, c) && !Waited(s.st, c) && MayRun(s, ParentOf(s.st, c)) && EntrantsOk(s, c)
    requires forall e :: Enters(t, e, c) ==> Enters(s, e, c) || (a == Advance(e) && ClaimsNow(s, t, e, c))
    requires (exists e :: Enters(s, e, c)) ==> c in t.st.runs && StillFirst(t.st.runs[c].state)
    ensures EntrantsOk(t, c)
  {
    forall e | Enters(t, e, c) ensures c in t.st.runs && StillFirst(t.st.runs[c].state) {
    }
  }

  /** One claimant at most before the first wait, after every step. */
  lemma StepKeepsEntrants(s: State, a: Action, c: RunId)
    requires Core(s) && EntrantsOk(s, c) && Enabled(s, a)
    ensures EntrantsOk(Apply(s, a), c)
  {
    var t := Apply(s, a);
    forall e | Enters(t, e, c)
      ensures IsChild(s.st, c) && (Enters(s, e, c) || (a == Advance(e) && ClaimsNow(s, t, e, c)))
    {
      assert PcOk(s, e);
      EntersBefore(s, a, e, c);
    }
    if e :| Enters(t, e, c) && IsChild(t.st, c) && !Waited(t.st, c) && MayRun(t, ParentOf(t.st, c)) {
      JournalGrows(s, a);
      MayRunBefore(s, a, c);
      if f :| Enters(s, f, c) {
        assert Exposed(s, c);
        StepKeepsFirst(s, a, c);
      }
      EntrantsOkAgain(s, t, a, c);
    }
  }

  // ---- the whole invariant ----

  lemma StepKeepsInv(s: State, a: Action)
    requires Inv(s) && Enabled(s, a)
    ensures Inv(Apply(s, a))
  {
    StepKeepsCore(s, a);
    forall c ensures EntrantsOk(Apply(s, a), c) { StepKeepsEntrants(s, a, c); }
  }

  lemma InitIsOk()
    ensures Inv(INIT)
  {
  }

  lemma {:induction false} RunKeepsInv(states: seq<State>, actions: seq<Action>, i: nat)
    requires IsRun(states, actions) && i < |states|
    ensures Inv(states[i])
    decreases i
  {
    if i == 0 {
      InitIsOk();
    } else {
      RunKeepsInv(states, actions, i - 1);
      assert Follows(states, actions, i - 1);
      StepKeepsInv(states[i - 1], actions[i - 1]);
    }
  }
}
