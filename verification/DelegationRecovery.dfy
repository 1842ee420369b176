/** When recovery may requeue a child beside live dispatchers: unless one of them stands between its
    claim of the child and the first wait for it, and the parent can come to run again. */
module DelegationRecovery {
  import opened Wrappers
  import opened DispatchResult
  import opened RunStore
  import opened Delegation
  import opened DelegationInvariant
  import opened DelegationSteps
  import opened DelegationClaims
  import opened DelegationRevival

  // ---- the duel of two claimants ----

  /** The parent runs, and nobody has made it wait for `c`. */
  ghost predicate Open(s: State, c: RunId, p: RunId) {
    && IsChild(s.st, c) && ParentOf(s.st, c) == p && p != c
    && p in s.st.runs && s.st.runs[p].state.Running? && WaitChild(c) !in s.st.journal
  }

  ghost predicate Calls(s: State, d: DispatcherId, p: RunId) {
    d in s.pcs && d in s.calls && s.calls[d].key.parent == p
  }

  /** `d` has seen the parent running. */
  ghost predicate Poised(s: State, d: DispatcherId, c: RunId, p: RunId) {
    Calls(s, d, p) && s.pcs[d].SawParent? && s.pcs[d].child == c && s.pcs[d].seen.Running?
  }

  ghost predicate StartsTwice(s: State, rest: seq<Action>, c: RunId) {
    match Continue(s, rest)
    case None => false
    case Some(t) => t.starts[c] >= 2
  }

  /** Once both have seen the parent running, both enter the agent: the newcomer waits on the
      parent, and the command is then the same for the other. */
  lemma BothStart(s: State, d: DispatcherId, e: DispatcherId, c: RunId, p: RunId) returns (rest: seq<Action>)
    requires Open(s, c, p) && Poised(s, d, c, p) && Poised(s, e, c, p) && d != e
    requires s.pcs[e].pv == s.st.runs[p].version
    ensures StartsTwice(s, rest, c)
  {
    var v, w, pv := s.pcs[d].v, s.pcs[e].v, s.st.runs[p].version + 1;
    var t1 := Goto(s.(st := Moved(s.st, p, WaitingChild, WaitChild(c), None)), e, HoldsParent(c, w, pv));
    assert Next(s, Advance(e)) == Some(t1);
    var t2 := Goto(t1, d, HoldsParent(c, v, pv));
    assert Next(t1, Advance(d)) == Some(t2);
    var t3 := Goto(t2.(starts := t2.starts + multiset{c}), e, InAgent(c, w, pv));
    assert Next(t2, Advance(e)) == Some(t3);
    var t4 := Goto(t3.(starts := t3.starts + multiset{c}), d, InAgent(c, v, pv));
    assert Next(t3, Advance(d)) == Some(t4);
    ContinueCons(t3, Advance(d), t4, []);
    ContinueCons(t2, Advance(e), t3, [Advance(d)] + []);
    ContinueCons(t1, Advance(d), t2, [Advance(e)] + ([Advance(d)] + []));
    rest := [Advance(e)] + ([Advance(d)] + ([Advance(e)] + ([Advance(d)] + [])));
    ContinueCons(s, Advance(e), t1, [Advance(d)] + ([Advance(e)] + ([Advance(d)] + [])));
  }

  /** A second dispatcher finds the requeued child, claims it and sees the parent running. */
  lemma NewcomerJoins(s: State, d: DispatcherId, e: DispatcherId, c: RunId, p: RunId) returns (rest: seq<Action>)
    requires Open(s, c, p) && Poised(s, d, c, p) && e !in s.pcs && MayDelegate(s, p)
    requires s.st.runs[c].state.Queued? && Claim(c, e) !in s.st.journal
    requires s.st.runs[c].key.value in s.st.index && s.st.index[s.st.runs[c].key.value] == c
    ensures StartsTwice(s, rest, c)
  {
    var r := s.st.runs[c];
    var call := Spec(c, r.key.value, r.principal);
    var t1 := Goto(s.(calls := s.calls[e := call]), e, FoundQueued(c, r.version));
    assert Next(s, Begin(e, call)) == Some(t1);
    var t2 := Goto(t1.(st := Moved(s.st, c, Running, Claim(c, e), None)), e, Claimed(c, r.version + 1));
    assert Next(t1, Advance(e)) == Some(t2);
    var t3 := Goto(t2, e, SawParent(c, r.version + 1, Running, s.st.runs[p].version));
    assert Next(t2, Advance(e)) == Some(t3);
    var more := BothStart(t3, d, e, c, p);
    ContinueCons(t2, Advance(e), t3, more);
    ContinueCons(t1, Advance(e), t2, [Advance(e)] + more);
    rest := [Begin(e, call)] + ([Advance(e)] + ([Advance(e)] + more));
    ContinueCons(s, Begin(e, call), t1, [Advance(e)] + ([Advance(e)] + more));
  }

  /** The parent can come to run again after the recovery of its child as it could before. */
  lemma RecoveryKeepsMayRun(s: State, c: RunId, n: nat, p: RunId)
    requires Core(s) && EnabledBesideDispatchers(s, Reconcile(c, n)) && !Waited(s.st, c)
    requires p != c && MayRun(s, p)
    ensures MayRun(Apply(s, Reconcile(c, n)), p)
  {
    if s.st.runs[p].state.WaitingChild? {
      var d :| d in s.pcs && Releases(s, d, p);
      assert PcOk(s, d);
      assert Releases(Apply(s, Reconcile(c, n)), d, p);
    }
  }

  /** Recovering an exposed child whose parent can come to run again can be continued to a second
      start. */
  lemma ExposedStartsTwice(s: State, c: RunId, n: nat) returns (rest: seq<Action>)
    requires Core(s) && EnabledBesideDispatchers(s, Reconcile(c, n)) && Exposed(s, c)
    requires IsChild(s.st, c) && MayRun(s, ParentOf(s.st, c))
    ensures StartsTwice(Apply(s, Reconcile(c, n)), rest, c)
  {
    var d := ExposedHasEntrant(s, c);
    assert ParentOf(s.st, c) != c;
    ReconcileStep(s, c, n);
    RecoveryKeepsMayRun(s, c, n, ParentOf(s.st, c));
    rest := RequeuedStartsTwice(Apply(s, Reconcile(c, n)), d, c, ParentOf(s.st, c));
  }

  lemma ExposedHasEntrant(s: State, c: RunId) returns (d: DispatcherId)
    requires (forall e :: PcOk(s, e)) && Exposed(s, c) && IsChild(s.st, c)
    ensures Enters(s, d, c) && Calls(s, d, ParentOf(s.st, c))
  {
    d :| d in s.pcs && Entrant(s.pcs[d]) && s.pcs[d].child == c;
    assert PcOk(s, d);
  }

  lemma ApartKeepsOpen(s: State, t: State, d: DispatcherId, c: RunId, p: RunId)
    requires Apart(s, t, c) && Enters(s, d, c) && Calls(s, d, p) && !Waited(s.st, c)
    requires IsChild(s.st, c) && ParentOf(s.st, c) == p && p != c && Runs(t, p)
    ensures Open(t, c, p) && Calls(t, d, p) && Enters(t, d, c)
  {
  }

  lemma RequeuedStartsTwice(s: State, d: DispatcherId, c: RunId, p: RunId) returns (rest: seq<Action>)
    requires Core(s) && Enters(s, d, c) && Calls(s, d, p) && !Waited(s.st, c)
    requires IsChild(s.st, c) && ParentOf(s.st, c) == p && p != c && MayRun(s, p)
    requires s.st.runs[c].state.Queued?
    ensures StartsTwice(s, rest, c)
  {
    var first, t := LetRun(s, p, c);
    ApartKeepsOpen(s, t, d, c, p);
    var more := SecondStart(t, d, c, p);
    ContinueThen(s, first, t, more);
    rest := first + more;
  }

  lemma SecondStart(s: State, d: DispatcherId, c: RunId, p: RunId) returns (rest: seq<Action>)
    requires Core(s) && Open(s, c, p) && Calls(s, d, p) && Enters(s, d, c) && s.st.runs[c].state.Queued?
    ensures StartsTwice(s, rest, c)
  {
    var e := FreshId(s.pcs.Keys);
    assert e !in s.pcs.Keys;
    assert Claim(c, e) !in s.st.journal && MayDelegate(s, p);
    rest := EntrantIsJoined(s, d, e, c, p);
  }

  lemma EntrantIsJoined(s: State, d: DispatcherId, e: DispatcherId, c: RunId, p: RunId) returns (rest: seq<Action>)
    requires Open(s, c, p) && Calls(s, d, p) && Entrant(s.pcs[d]) && s.pcs[d].child == c
    requires e !in s.pcs && MayDelegate(s, p)
    requires s.st.runs[c].state.Queued? && Claim(c, e) !in s.st.journal
    requires s.st.runs[c].key.value in s.st.index && s.st.index[s.st.runs[c].key.value] == c
    ensures StartsTwice(s, rest, c)
  {
    if s.pcs[d].Claimed? {
      var u := Goto(s, d, SawParent(c, s.pcs[d].v, Running, s.st.runs[p].version));
      assert Next(s, Advance(d)) == Some(u);
      var more := NewcomerJoins(u, d, e, c, p);
      rest := [Advance(d)] + more;
      ContinueCons(s, Advance(d), u, more);
    } else {
      rest := NewcomerJoins(s, d, e, c, p);
    }
  }

  ghost predicate StartsOnce(s: State, rest: seq<Action>, c: RunId) {
    Continue(s, rest).Some? ==> Continue(s, rest).value.starts[c] <= 1
  }

  /** In any reachable state: whatever follows, recovering the child `c` now lets `agent.run` be
      entered at most once, if and only if `c` is not exposed or its parent cannot come to run again. */
  lemma RecoveryIsSafeIff(states: seq<State>, actions: seq<Action>, i: nat, c: RunId, n: nat)
    requires IsRun(states, actions) && i < |states|
    requires EnabledBesideDispatchers(states[i], Reconcile(c, n)) && IsChild(states[i].st, c)
    ensures (forall rest: seq<Action> :: StartsOnce(Apply(states[i], Reconcile(c, n)), rest, c))
       <==> !(Exposed(states[i], c) && MayRun(states[i], ParentOf(states[i].st, c)))
  {
    RunKeepsInv(states, actions, i);
    var s := states[i];
    var t := Apply(s, Reconcile(c, n));
    if Unsafe(s, c) {
      var rest := ExposedStartsTwice(s, c, n);
      assert !StartsOnce(t, rest, c);
    } else {
      StepKeepsInv(s, Reconcile(c, n));
      forall rest: seq<Action> ensures StartsOnce(t, rest, c) {
        if Continue(t, rest).Some? {
          ContinueKeepsInv(t, rest);
        }
      }
    }
  }

  // ---- an exposed child ----

  const WHO := Principal(0, 0, 0)
  const KEY := Key(0, 0, Target(0, 0, 0, 0))

  function Root(state: RunState, version: nat): Run { Run(state, version, WHO, None, None) }
  function Child(state: RunState, version: nat): Run { Run(state, version, WHO, Some(KEY), None) }

  /** Dispatcher 1 has claimed child 10 of run 0. */
  const CLAIMING: seq<Action> :=
    [NewRun(0, WHO)] + ([MoveOutside(0, Running, 0)] + ([Begin(1, Spec(10, KEY, WHO))] + ([Advance(1)] + [])))

  function AfterClaim(): State {
    State(Store(map[0 := Root(Running, 1), 10 := Child(Running, 1)], map[KEY := 10],
                map[Outside(0) := Entry(0, 1), Claim(10, 1) := Entry(10, 1)]),
          map[1 := Spec(10, KEY, WHO)], map[1 := Claimed(10, 1)], multiset{})
  }

  /** Such a state is reached in four steps. */
  lemma ExposedStateIsReached()
    ensures Continue(INIT, CLAIMING) == Some(AfterClaim())
    ensures Exposed(AfterClaim(), 10) && AfterClaim().st.runs[0].state.Running?
    ensures EnabledBesideDispatchers(AfterClaim(), Reconcile(10, 1)) && IsChild(AfterClaim().st, 10)
  {
    var s1 := Apply(INIT, NewRun(0, WHO));
    var s2 := Apply(s1, MoveOutside(0, Running, 0));
    var s3 := Apply(s2, Begin(1, Spec(10, KEY, WHO)));
    assert Apply(s3, Advance(1)) == AfterClaim();
    ContinueCons(s3, Advance(1), AfterClaim(), []);
    ContinueCons(s2, Begin(1, Spec(10, KEY, WHO)), s3, [Advance(1)] + []);
    ContinueCons(s1, MoveOutside(0, Running, 0), s2, [Begin(1, Spec(10, KEY, WHO))] + ([Advance(1)] + []));
    ContinueCons(INIT, NewRun(0, WHO), s1,
                 [MoveOutside(0, Running, 0)] + ([Begin(1, Spec(10, KEY, WHO))] + ([Advance(1)] + [])));
    assert AfterClaim().pcs[1].Claimed?;
  }
}
