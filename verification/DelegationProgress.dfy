/** Who lets a waiting parent go: a live dispatcher stands ready to, as long as nobody disturbs it,
    and once it is disturbed nobody ever does. */
module DelegationProgress {
  import opened Wrappers
  import opened DispatchResult
  import opened RunStore
  import opened Delegation
  import opened DelegationInvariant
  import opened DelegationSteps
  import opened DelegationClaims
  import opened DelegationRevival
  import opened DelegationRecovery
  import opened DelegationTheorems

  // ---- served ----

  /** `d` has made the parent of `c` wait and its claim of `c` still counts. */
  ghost predicate Serving(s: State, d: DispatcherId, c: RunId) {
    && On(s, d, c)
    && (s.pcs[d].Resuming? || (PastWait(s.pcs[d]) && c in s.st.runs && s.pcs[d].v == s.st.runs[c].version))
  }

  /** Nobody but its dispatcher touches `c`, that one does not crash, and `c` does not itself
      delegate. */
  ghost predicate Gentle(s: State, a: Action, c: RunId) {
    && !(a.Crash? && On(s, a.d, c))
    && !(a.MoveOutside? && a.run == c)
    && !(a.Reconcile? && a.run == c)
    && !(a.Begin? && a.call.key.parent == c)
  }

  /** `c` is claimed at most once and then not queued again; it is nobody's parent. */
  ghost predicate Alone(s: State, c: RunId) {
    && (forall d, e :: Claim(c, d) in s.st.journal && Claim(c, e) in s.st.journal ==> d == e)
    && (forall d :: Claim(c, d) in s.st.journal ==> c in s.st.runs && !s.st.runs[c].state.Queued?)
    && (forall d <- s.calls :: s.calls[d].key.parent != c)
  }

  /** The claim of `e` counts up to the wait. */
  ghost predicate CountsFor(s: State, e: DispatcherId, c: RunId) {
    On(s, e, c) && (s.pcs[e].Claimed? || s.pcs[e].SawParent?) ==>
      c in s.st.runs && s.pcs[e].v == s.st.runs[c].version
  }

  /** Up to the wait the claim still counts too. */
  ghost predicate ClaimCounts(s: State, c: RunId) {
    forall d :: CountsFor(s, d, c)
  }

  /** The parent of `c` waits for it, and `c` does not wait for an approval itself. */
  ghost predicate Awaited(st: Store, c: RunId) {
    && IsChild(st, c) && Holds(st, c) && !st.runs[c].state.WaitingApproval?
    && ParentOf(st, c) in st.runs && st.runs[ParentOf(st, c)].state.WaitingChild?
  }

  ghost predicate Served(s: State, c: RunId) {
    Awaited(s.st, c) ==> exists d :: Serving(s, d, c)
  }

  /** A step of another dispatcher leaves a child that is served as it is. */
  lemma OthersLeaveChild(s: State, e: DispatcherId, d: DispatcherId, c: RunId)
    requires PcOk(s, e) && At(s, e) && !s.pcs[e].InAgent? && HolderOk(s.st, s.pcs[e].child)
    requires Alone(s, c) && Claim(c, d) in s.st.journal && e != d
    ensures c in AdvanceStep(s, e).st.runs && AdvanceStep(s, e).st.runs[c] == s.st.runs[c]
  {
    var moved, r, to, cmd, patch := AdvanceMoves(s, e);
  }

  lemma ClaimKeepsAlone(s: State, d: DispatcherId, c: RunId)
    requires PcOk(s, d) && At(s, d) && s.pcs[d].FoundQueued? && Alone(s, c)
    ensures Alone(AdvanceStep(s, d), c)
  {
    var x, v := s.pcs[d].child, s.pcs[d].v;
    if Transition(s.st, x, Running, Claim(x, d), v, None).Ok? {
      var t := AdvanceStep(s, d);
      assert t.st == Moved(s.st, x, Running, Claim(x, d), None) && t.calls == s.calls;
      assert forall e :: Claim(c, e) in t.st.journal ==> Claim(c, e) in s.st.journal || (x == c && e == d);
    } else {
      assert AdvanceStep(s, d).st == s.st;
    }
  }

  lemma OtherStepsKeepAlone(s: State, d: DispatcherId, c: RunId)
    requires PcOk(s, d) && At(s, d) && !s.pcs[d].InAgent? && !s.pcs[d].FoundQueued? && Alone(s, c)
    requires HolderOk(s.st, s.pcs[d].child)
    ensures Alone(AdvanceStep(s, d), c)
  {
    var moved, r, to, cmd, patch := AdvanceMoves(s, d);
    var t := AdvanceStep(s, d);
    assert t.calls == s.calls;
  }

  lemma AdvanceKeepsAlone(s: State, d: DispatcherId, c: RunId)
    requires PcOk(s, d) && At(s, d) && !s.pcs[d].InAgent? && Alone(s, c)
    requires HolderOk(s.st, s.pcs[d].child)
    ensures Alone(AdvanceStep(s, d), c)
  {
    if s.pcs[d].FoundQueued? { ClaimKeepsAlone(s, d, c); } else { OtherStepsKeepAlone(s, d, c); }
  }

  lemma GentleKeepsAlone(s: State, a: Action, c: RunId)
    requires Inv(s) && Enabled(s, a) && Gentle(s, a, c) && Alone(s, c)
    ensures Alone(Apply(s, a), c)
  {
    if a.Advance? {
      assert PcOk(s, a.d) && HolderOk(s.st, s.pcs[a.d].child);
      AdvanceKeepsAlone(s, a.d, c);
    } else if a.Begin? {
      BeginKeepsAlone(s, a.d, a.call, c);
    } else {
      QuietKeepsAlone(s, a, c);
    }
  }

  lemma BeginKeepsAlone(s: State, d: DispatcherId, call: Spec, c: RunId)
    requires Alone(s, c) && call.key.parent != c
    ensures Alone(BeginStep(s, d, call), c)
  {
    BeginAddsOnly(s, d, call);
  }

  lemma QuietKeepsAlone(s: State, a: Action, c: RunId)
    requires Enabled(s, a) && Gentle(s, a, c) && Alone(s, c) && !a.Advance? && !a.Begin?
    ensures Alone(Apply(s, a), c)
  {
    var t := Apply(s, a);
    assert t.calls == s.calls;
    assert forall d :: Claim(c, d) in t.st.journal ==> Claim(c, d) in s.st.journal;
  }

  /** A step of anybody else leaves the serving dispatcher in place. */
  lemma OthersKeepServing(s: State, a: Action, c: RunId, d: DispatcherId)
    requires Inv(s) && Enabled(s, a) && Gentle(s, a, c) && Alone(s, c) && Serving(s, d, c) && Aside(a, d)
    ensures Serving(Apply(s, a), d, c)
  {
    assert PcOk(s, d);
    AsideStays(s, a, d);
    if a.Advance? {
      assert PcOk(s, a.d) && HolderOk(s.st, s.pcs[a.d].child);
      OthersLeaveChild(s, a.d, d, c);
    } else {
      QuietLeavesChild(s, a, c);
    }
  }

  lemma QuietLeavesChild(s: State, a: Action, c: RunId)
    requires Enabled(s, a) && Gentle(s, a, c) && IsChild(s.st, c) && !a.Advance?
    ensures c in Apply(s, a).st.runs && Apply(s, a).st.runs[c] == s.st.runs[c]
  {
    if a.Begin? { BeginAddsOnly(s, a.d, a.call); }
  }

  /** Its own step leaves it serving, or the parent released, or the child waiting for approval. */
  lemma OwnAdvanceServes(s: State, d: DispatcherId, c: RunId)
    requires PcOk(s, d) && At(s, d) && !s.pcs[d].InAgent? && Serving(s, d, c)
    requires HolderOk(s.st, c) && Awaited(s.st, c)
    ensures Serving(AdvanceStep(s, d), d, c) || !Awaited(AdvanceStep(s, d).st, c)
  {
  }

  lemma OwnStepServes(s: State, a: Action, c: RunId, d: DispatcherId)
    requires Inv(s) && Enabled(s, a) && Gentle(s, a, c) && Serving(s, d, c) && Awaited(s.st, c)
    requires !Aside(a, d)
    ensures Serving(Apply(s, a), d, c) || !Awaited(Apply(s, a).st, c)
  {
    assert PcOk(s, d) && HolderOk(s.st, c);
    if a.Advance? { OwnAdvanceServes(s, d, c); }
  }

  /** The step that makes the parent wait sets its dispatcher to serve. */
  lemma WaitServes(s: State, d: DispatcherId, c: RunId)
    requires PcOk(s, d) && At(s, d) && !s.pcs[d].InAgent? && CountsFor(s, d, c)
    requires s.calls[d].key.parent != c && !Waited(s.st, c) && Waited(AdvanceStep(s, d).st, c)
    ensures Serving(AdvanceStep(s, d), d, c)
  {
  }

  lemma OwnKeepsClaimCounts(s: State, d: DispatcherId, c: RunId)
    requires PcOk(s, d) && At(s, d) && !s.pcs[d].InAgent? && CountsFor(s, d, c)
    ensures CountsFor(AdvanceStep(s, d), d, c)
  {
  }

  lemma OthersKeepClaimCounts(s: State, a: Action, c: RunId, e: DispatcherId)
    requires Inv(s) && Enabled(s, a) && Gentle(s, a, c) && Alone(s, c) && CountsFor(s, e, c) && Aside(a, e)
    ensures CountsFor(Apply(s, a), e, c)
  {
    AsideStays(s, a, e);
    assert PcOk(s, e);
    if On(s, e, c) && (s.pcs[e].Claimed? || s.pcs[e].SawParent?) {
      if a.Advance? {
        assert PcOk(s, a.d) && HolderOk(s.st, s.pcs[a.d].child);
        OthersLeaveChild(s, a.d, e, c);
      } else {
        QuietLeavesChild(s, a, c);
      }
    }
  }

  lemma NewcomerCounts(s: State, d: DispatcherId, call: Spec, c: RunId)
    ensures CountsFor(BeginStep(s, d, call), d, c)
  {
    BeginAddsOnly(s, d, call);
  }

  lemma GentleKeepsClaimCounts(s: State, a: Action, c: RunId)
    requires Inv(s) && Enabled(s, a) && Gentle(s, a, c) && Alone(s, c) && ClaimCounts(s, c)
    ensures ClaimCounts(Apply(s, a), c)
  {
    var t := Apply(s, a);
    forall e ensures CountsFor(t, e, c) {
      assert PcOk(s, e) && CountsFor(s, e, c);
      if Aside(a, e) {
        OthersKeepClaimCounts(s, a, c, e);
      } else if a.Advance? {
        OwnKeepsClaimCounts(s, e, c);
      } else if a.Begin? {
        NewcomerCounts(s, e, a.call, c);
      }
    }
  }

  /** A parent that waits after a step either waited before or was made to by that step. */
  lemma AwaitedBefore(s: State, a: Action, c: RunId)
    requires Inv(s) && Enabled(s, a) && Gentle(s, a, c) && Alone(s, c) && Awaited(Apply(s, a).st, c)
    ensures Awaited(s.st, c) || (a.Advance? && !Waited(s.st, c))
  {
    assert HolderOk(s.st, c);
    if a.Advance? {
      assert PcOk(s, a.d) && HolderOk(s.st, s.pcs[a.d].child);
      if Waited(s.st, c) { AdvanceAwaitedBefore(s, a.d, c); }
    } else {
      QuietAwaitedBefore(s, a, c);
    }
  }

  lemma AdvanceAwaitedBefore(s: State, d: DispatcherId, c: RunId)
    requires PcOk(s, d) && At(s, d) && !s.pcs[d].InAgent? && HolderOk(s.st, s.pcs[d].child) && HolderOk(s.st, c)
    requires Alone(s, c) && Awaited(AdvanceStep(s, d).st, c) && Waited(s.st, c)
    ensures Awaited(s.st, c)
  {
    var moved, r, to, cmd, patch := AdvanceMoves(s, d);
  }

  lemma QuietAwaitedBefore(s: State, a: Action, c: RunId)
    requires Enabled(s, a) && Gentle(s, a, c) && HolderOk(s.st, c) && !a.Advance?
    requires Awaited(Apply(s, a).st, c)
    ensures Awaited(s.st, c)
  {
    if a.Begin? { BeginAddsOnly(s, a.d, a.call); }
    assert Waited(s.st, c) && !Released(s.st, c);
  }

  lemma GentleKeepsServed(s: State, a: Action, c: RunId)
    requires Inv(s) && Enabled(s, a) && Gentle(s, a, c) && Alone(s, c) && ClaimCounts(s, c) && Served(s, c)
    ensures Served(Apply(s, a), c)
  {
    var t := Apply(s, a);
    if Awaited(t.st, c) {
      AwaitedBefore(s, a, c);
      if Awaited(s.st, c) {
        var d :| Serving(s, d, c);
        if Aside(a, d) {
          OthersKeepServing(s, a, c, d);
        } else {
          OwnStepServes(s, a, c, d);
        }
        assert Serving(t, d, c);
      } else {
        assert PcOk(s, a.d) && CountsFor(s, a.d, c);
        WaitServes(s, a.d, c);
        assert Serving(t, a.d, c);
      }
    }
  }

  lemma {:induction false} RunKeepsServed(states: seq<State>, actions: seq<Action>, i: nat, c: RunId)
    requires IsRun(states, actions) && i < |states|
    requires forall k: nat :: k < i ==> Gentle(states[k], actions[k], c)
    ensures Alone(states[i], c)
    ensures ClaimCounts(states[i], c)
    ensures Served(states[i], c)
    decreases i
  {
    if i > 0 {
      var k := i - 1;
      RunKeepsServed(states, actions, k, c);
      RunKeepsInv(states, actions, k);
      assert Follows(states, actions, k);
      assert Gentle(states[k], actions[k], c);
      GentleKeepsAlone(states[k], actions[k], c);
      GentleKeepsClaimCounts(states[k], actions[k], c);
      GentleKeepsServed(states[k], actions[k], c);
    }
  }

  /** In a run that leaves a child and its dispatcher undisturbed, a parent that waits for it has a
      live dispatcher to release it, unless the child waits for an approval. */
  lemma WaitingParentIsServed(states: seq<State>, actions: seq<Action>, i: nat, p: RunId)
    requires IsRun(states, actions) && i < |states|
    requires p in states[i].st.runs && states[i].st.runs[p].state.WaitingChild?
    requires forall c, k: nat :: k < i && HeldBy(states[i].st, p, c) ==> Gentle(states[k], actions[k], c)
    ensures exists c :: HeldBy(states[i].st, p, c) &&
              (states[i].st.runs[c].state.WaitingApproval? || exists d :: Serving(states[i], d, c))
  {
    ParentsHaveOneHolder(states, actions, i, p);
    var c :| HeldBy(states[i].st, p, c);
    forall k: nat | k < i ensures Gentle(states[k], actions[k], c) { }
    RunKeepsServed(states, actions, i, c);
  }

  // ---- what strands a parent ----

  /** A crash, or any change of the child by others while the agent runs: another end, a recovery,
      or the child being made to wait for a child of its own. */
  ghost predicate Disturbs(s: State, a: Action, d: DispatcherId)
    requires Enabled(s, a) && d in s.pcs && !Over(s.pcs[d])
  {
    || a == Crash(d)
    || (PastWait(s.pcs[d]) && Aside(a, d)
        && VersionOf(Apply(s, a).st, s.pcs[d].child) != VersionOf(s.st, s.pcs[d].child))
  }

  /** Only one dispatcher can let a waiting parent go. */
  lemma OneReleaser(s: State, d: DispatcherId, e: DispatcherId, p: RunId)
    requires PcOk(s, d) && PcOk(s, e) && OneHolder(s.st) && Releases(s, d, p) && Releases(s, e, p)
    requires HolderOk(s.st, s.pcs[d].child) && HolderOk(s.st, s.pcs[e].child)
    ensures d == e
  {
    var c, x := s.pcs[d].child, s.pcs[e].child;
    assert IsChild(s.st, c) && Holds(s.st, c) && ParentOf(s.st, c) == p;
    assert IsChild(s.st, x) && Holds(s.st, x) && ParentOf(s.st, x) == p;
  }

  lemma DisturbedReleasesNot(s: State, a: Action, d: DispatcherId, p: RunId)
    requires Inv(s) && Enabled(s, a) && Releases(s, d, p) && Disturbs(s, a, d)
    ensures !Releases(Apply(s, a), d, p)
  {
    if a != Crash(d) {
      AsideStays(s, a, d);
    }
  }

  lemma DisturbanceEndsHope(s: State, a: Action, d: DispatcherId, p: RunId)
    requires Inv(s) && Enabled(s, a) && Releases(s, d, p) && Disturbs(s, a, d)
    requires p in s.st.runs && s.st.runs[p].state.WaitingChild?
    ensures forall e :: !Releases(Apply(s, a), e, p)
  {
    DisturbedReleasesNot(s, a, d, p);
    forall e ensures !Releases(Apply(s, a), e, p) {
      if Releases(Apply(s, a), e, p) {
        ReleasedBefore(s, a, e, p);
        assert PcOk(s, d) && PcOk(s, e) && HolderOk(s.st, s.pcs[d].child) && HolderOk(s.st, s.pcs[e].child);
        OneReleaser(s, d, e, p);
      }
    }
  }

  /** A parent that waits does not stop waiting by such a step. */
  lemma DisturbedStaysWaiting(s: State, a: Action, d: DispatcherId, p: RunId)
    requires Inv(s) && Enabled(s, a) && Releases(s, d, p) && Disturbs(s, a, d)
    requires p in s.st.runs && s.st.runs[p].state.WaitingChild?
    ensures p in Apply(s, a).st.runs
    ensures var r := Apply(s, a).st.runs[p].state; r.WaitingChild? || r.Failed? || r.Cancelled?
  {
    if a.Advance? {
      assert PcOk(s, a.d) && PcOk(s, d) && HolderOk(s.st, s.pcs[a.d].child) && HolderOk(s.st, s.pcs[d].child);
      if s.pcs[a.d].Resuming? && s.calls[a.d].key.parent == p {
        assert Releases(s, a.d, p);
        OneReleaser(s, d, a.d, p);
      }
      WaitingMovesOnRelease(s, a.d, p);
    } else if a.Begin? {
      BeginAddsOnly(s, a.d, a.call);
    }
  }

  lemma WaitingMovesOnRelease(s: State, d: DispatcherId, p: RunId)
    requires PcOk(s, d) && At(s, d) && !s.pcs[d].InAgent? && HolderOk(s.st, s.pcs[d].child)
    requires p in s.st.runs && s.st.runs[p].state.WaitingChild?
    requires s.pcs[d].Resuming? ==> s.calls[d].key.parent != p
    ensures p in AdvanceStep(s, d).st.runs
    ensures var r := AdvanceStep(s, d).st.runs[p].state; r.WaitingChild? || r.Failed? || r.Cancelled?
  {
    var moved, r, to, cmd, patch := AdvanceMoves(s, d);
  }

  /** Each such disturbance strands the parent for good: whatever follows it never runs again, but
      waits for ever, or is ended from outside. */
  lemma DisturbanceStrands(s: State, a: Action, d: DispatcherId, p: RunId, rest: seq<Action>)
    requires Inv(s) && Enabled(s, a) && Releases(s, d, p) && Disturbs(s, a, d)
    requires p in s.st.runs && s.st.runs[p].state.WaitingChild?
    requires Continue(Apply(s, a), rest).Some?
    ensures Stranded(Continue(Apply(s, a), rest).value, p)
  {
    StepKeepsInv(s, a);
    DisturbedIsStranded(s, a, d, p);
    ContinueKeepsStranded(Apply(s, a), rest, p);
  }

  lemma DisturbedIsStranded(s: State, a: Action, d: DispatcherId, p: RunId)
    requires Inv(s) && Enabled(s, a) && Releases(s, d, p) && Disturbs(s, a, d)
    requires p in s.st.runs && s.st.runs[p].state.WaitingChild?
    ensures Stranded(Apply(s, a), p)
  {
    DisturbanceEndsHope(s, a, d, p);
    DisturbedStaysWaiting(s, a, d, p);
  }

  ghost predicate Stranded(s: State, p: RunId) {
    && p in s.st.runs && !MayRun(s, p)
    && var r := s.st.runs[p].state; r.WaitingChild? || r.Failed? || r.Cancelled?
  }

  lemma {:induction false} ContinueKeepsStranded(s: State, rest: seq<Action>, p: RunId)
    requires Inv(s) && Stranded(s, p) && Continue(s, rest).Some?
    ensures Stranded(Continue(s, rest).value, p)
    decreases |rest|
  {
    if rest != [] {
      DeadRunKept(s, rest[0], p);
      StepKeepsDead(s, rest[0], p);
      StepKeepsInv(s, rest[0]);
      ContinueKeepsStranded(Apply(s, rest[0]), rest[1..], p);
    }
  }

  // ---- such a crash ----

  // From the claim of child 10 on: dispatcher 1 has seen the parent, made it wait, entered the
  // agent, got its exception, and ended the child.

  function Seen(): State { Goto(AfterClaim(), 1, SawParent(10, 1, Running, 1)) }

  function Waiting(): State {
    Goto(Seen().(st := Moved(Seen().st, 0, WaitingChild, WaitChild(10), None)), 1, HoldsParent(10, 1, 2))
  }

  function Entered(): State { Goto(Waiting().(starts := Waiting().starts + multiset{10}), 1, InAgent(10, 1, 2)) }

  function Excepted(): State { Goto(Entered(), 1, AgentFailed(10, 1, 2)) }

  /** The parent waits for a child that has ended, and dispatcher 1 is about to release it. */
  function BeforeRelease(): State {
    Goto(Excepted().(st := Moved(Excepted().st, 10, Failed, Fail(10), None)), 1, Resuming(10, 2, Raised(AgentError)))
  }

  const FAILING: seq<Action> :=
    [Advance(1)] + ([Advance(1)] + ([Advance(1)] + ([AgentRaises(1)] + ([Advance(1)] + []))))

  lemma WaitIsReached()
    ensures Next(AfterClaim(), Advance(1)) == Some(Seen())
    ensures Next(Seen(), Advance(1)) == Some(Waiting())
  {
  }

  lemma EndIsReached()
    ensures Next(Excepted(), Advance(1)) == Some(BeforeRelease())
  {
    var st := Excepted().st;
    assert Transition(st, 10, Failed, Fail(10), 1, None) == Ok(Moved(st, 10, Failed, Fail(10), None));
  }

  lemma FailingIsReached()
    ensures Continue(AfterClaim(), FAILING) == Some(BeforeRelease())
  {
    WaitIsReached();
    EndIsReached();
    ContinueCons(Excepted(), Advance(1), BeforeRelease(), []);
    ContinueCons(Entered(), AgentRaises(1), Excepted(), [Advance(1)] + []);
    ContinueCons(Waiting(), Advance(1), Entered(), [AgentRaises(1)] + ([Advance(1)] + []));
    ContinueCons(Seen(), Advance(1), Waiting(), [Advance(1)] + ([AgentRaises(1)] + ([Advance(1)] + [])));
    ContinueCons(AfterClaim(), Advance(1), Seen(),
                 [Advance(1)] + ([Advance(1)] + ([AgentRaises(1)] + ([Advance(1)] + []))));
  }

  lemma BeforeReleaseIsReached()
    ensures Continue(INIT, CLAIMING + FAILING) == Some(BeforeRelease()) && Inv(BeforeRelease())
  {
    ExposedStateIsReached();
    FailingIsReached();
    ContinueThen(INIT, CLAIMING, AfterClaim(), FAILING);
    InitIsOk();
    ContinueKeepsInv(INIT, CLAIMING + FAILING);
  }

  /** There is a run in which a crash between the end of the child and the release of its parent
      leaves the parent waiting for an ended child, which nothing can release any more. */
  lemma CrashStrandsParent()
    ensures Continue(INIT, CLAIMING + FAILING) == Some(BeforeRelease()) && Enabled(BeforeRelease(), Crash(1))
    ensures var end := Apply(BeforeRelease(), Crash(1));
            Awaited(end.st, 10) && Terminal(end.st.runs[10].state) && forall rest :: !Revives(end, rest, 0)
  {
    BeforeReleaseIsReached();
    var s := BeforeRelease();
    forall rest ensures !Revives(Apply(s, Crash(1)), rest, 0) {
      if Continue(Apply(s, Crash(1)), rest).Some? { DisturbanceStrands(s, Crash(1), 1, 0, rest); }
    }
  }
}
