/** Which runs can come to run again: exactly those of which `MayRun` says so. */
module DelegationRevival {
  import opened Wrappers
  import opened DispatchResult
  import opened RunStore
  import opened Delegation
  import opened DelegationInvariant
  import opened DelegationSteps
  import opened DelegationClaims

  // ---- continuing from a state ----

  function Continue(s: State, actions: seq<Action>): Option<State>
    decreases |actions|
  {
    if actions == [] then Some(s)
    else if !Enabled(s, actions[0]) then None
    else Continue(Apply(s, actions[0]), actions[1..])
  }

  lemma {:induction false} ContinueKeepsInv(s: State, actions: seq<Action>)
    requires Inv(s) && Continue(s, actions).Some?
    ensures Inv(Continue(s, actions).value)
    decreases |actions|
  {
    if actions != [] {
      StepKeepsInv(s, actions[0]);
      ContinueKeepsInv(Apply(s, actions[0]), actions[1..]);
    }
  }

  function Next(s: State, a: Action): Option<State> {
    if Enabled(s, a) then Some(Apply(s, a)) else None
  }

  lemma ContinueCons(s: State, a: Action, t: State, rest: seq<Action>)
    requires Next(s, a) == Some(t)
    ensures Continue(s, [a] + rest) == Continue(t, rest)
  {
    assert ([a] + rest)[1..] == rest;
  }

  lemma {:induction false} ContinueThen(s: State, first: seq<Action>, t: State, rest: seq<Action>)
    requires Continue(s, first) == Some(t)
    ensures Continue(s, first + rest) == Continue(t, rest)
    decreases |first|
  {
    if first == [] {
      assert first + rest == rest;
    } else {
      ContinueThen(Apply(s, first[0]), first[1..], t, rest);
      ContinueCons(s, first[0], Apply(s, first[0]), first[1..] + rest);
      assert first + rest == [first[0]] + (first[1..] + rest);
    }
  }

  lemma {:induction false} ContinueKeepsDead(s: State, rest: seq<Action>, p: RunId)
    requires Inv(s) && p in s.st.runs && !MayRun(s, p) && Continue(s, rest).Some?
    ensures p in Continue(s, rest).value.st.runs && !MayRun(Continue(s, rest).value, p)
    decreases |rest|
  {
    if rest != [] {
      StepKeepsInv(s, rest[0]);
      StepKeepsDead(s, rest[0], p);
      ContinueKeepsDead(Apply(s, rest[0]), rest[1..], p);
    }
  }

  // ---- ways to let a run run ----

  lemma {:induction false} FreshId(ids: set<DispatcherId>) returns (n: nat)
    ensures forall d :: d in ids ==> d < n
    decreases ids
  {
    n := 0;
    if ids != {} {
      var d :| d in ids;
      var rest := ids - {d};
      n := FreshId(rest);
      if d >= n { n := d + 1; }
      assert ids == rest + {d};
    }
  }

  lemma FreshSerial(st: Store) returns (n: nat)
    ensures Outside(n) !in st.journal
  {
    var serials := set k | k in st.journal && k.Outside? :: k.serial;
    n := FreshId(serials);
    forall k | k in st.journal && k.Outside? ensures k.serial < n { assert k.serial in serials; }
  }

  /** Between `s` and `t` nothing happened to `c` and to its first claimants. */
  ghost predicate Apart(s: State, t: State, c: RunId) {
    && (c in s.st.runs ==> c in t.st.runs && t.st.runs[c] == s.st.runs[c])
    && (Waited(t.st, c) ==> Waited(s.st, c))
    && forall d :: Enters(s, d, c) && d in s.calls ==> Enters(t, d, c) && SameFor(s, t, d)
  }

  /** `rest` leads from `s` to `t`, past `c`. */
  ghost predicate Leads(s: State, rest: seq<Action>, t: State, c: RunId) {
    Continue(s, rest) == Some(t) && Core(t) && Apart(s, t, c)
  }

  lemma LeadsCons(s: State, a: Action, u: State, rest: seq<Action>, t: State, c: RunId)
    requires Next(s, a) == Some(u) && Apart(s, u, c) && Leads(u, rest, t, c)
    ensures Leads(s, [a] + rest, t, c)
  {
    ContinueCons(s, a, u, rest);
  }

  ghost predicate Runs(s: State, p: RunId) { p in s.st.runs && s.st.runs[p].state.Running? }

  /** Other components start a queued run that nobody delegated. */
  lemma LetRootRun(s: State, p: RunId, c: RunId) returns (rest: seq<Action>, t: State)
    requires Core(s) && p != c && p in s.st.runs && s.st.runs[p].key.None? && s.st.runs[p].state.Queued?
    ensures Leads(s, rest, t, c) && Runs(t, p)
  {
    var n := FreshSerial(s.st);
    var a := MoveOutside(p, Running, n);
    t := Apply(s, a);
    StepKeepsCore(s, a);
    LeadsCons(s, a, t, [], t, c);
    rest := [a] + [];
  }

  /** `e` has come for the queued run `p`. */
  function Arrived(s: State, e: DispatcherId, p: RunId): State
    requires IsChild(s.st, p)
  {
    var r := s.st.runs[p];
    Goto(s.(calls := s.calls[e := Spec(p, r.key.value, r.principal)]), e, FoundQueued(p, r.version))
  }

  /** The run `p` after its claim by `e`. */
  function ClaimedBy(s: State, e: DispatcherId, p: RunId): State
    requires p in s.st.runs
  {
    Goto(s.(st := Moved(s.st, p, Running, Claim(p, e), None)), e, Claimed(p, s.st.runs[p].version + 1))
  }

  lemma ArrivedClaims(s: State, e: DispatcherId, p: RunId, c: RunId) returns (t: State)
    requires Core(s) && p in s.st.runs && p != c && s.st.runs[p].state.Queued? && Claim(p, e) !in s.st.journal
    requires At(s, e) && s.pcs[e] == FoundQueued(p, s.st.runs[p].version)
    ensures Leads(s, [Advance(e)] + [], t, c) && Runs(t, p)
  {
    t := ClaimedBy(s, e, p);
    StepKeepsCore(s, Advance(e));
    LeadsCons(s, Advance(e), t, [], t, c);
  }

  lemma NewcomerArrives(s: State, e: DispatcherId, p: RunId)
    requires StoreOk(s.st) && IsChild(s.st, p) && s.st.runs[p].state.Queued? && e !in s.pcs
    requires MayDelegate(s, ParentOf(s.st, p))
    ensures Next(s, Begin(e, Spec(p, s.st.runs[p].key.value, s.st.runs[p].principal))) == Some(Arrived(s, e, p))
  {
  }

  lemma NewcomerFinds(s: State, p: RunId, c: RunId) returns (a: Action, e: DispatcherId)
    requires Core(s) && p != c && IsChild(s.st, p) && s.st.runs[p].state.Queued?
    ensures e !in s.pcs && Claim(p, e) !in s.st.journal
    ensures Next(s, a) == Some(Arrived(s, e, p)) && Core(Arrived(s, e, p)) && Apart(s, Arrived(s, e, p), c)
  {
    e := FreshId(s.pcs.Keys);
    assert e !in s.pcs.Keys && Claim(p, e) !in s.st.journal;
    a := Begin(e, Spec(p, s.st.runs[p].key.value, s.st.runs[p].principal));
    NewcomerArrives(s, e, p);
    StepKeepsCore(s, a);
  }

  /** A new dispatcher finds a queued delegated run and claims it. */
  lemma LetChildRun(s: State, p: RunId, c: RunId) returns (rest: seq<Action>, t: State)
    requires Core(s) && p != c && IsChild(s.st, p) && s.st.runs[p].state.Queued?
    ensures Leads(s, rest, t, c) && Runs(t, p)
  {
    var a, e := NewcomerFinds(s, p, c);
    t := ArrivedClaims(Arrived(s, e, p), e, p, c);
    LeadsCons(s, a, Arrived(s, e, p), [Advance(e)] + [], t, c);
    rest := [a] + ([Advance(e)] + []);
  }

  lemma LetQueuedRun(s: State, p: RunId, c: RunId) returns (rest: seq<Action>, t: State)
    requires Core(s) && p != c && p in s.st.runs && s.st.runs[p].state.Queued?
    ensures Leads(s, rest, t, c) && Runs(t, p)
  {
    if s.st.runs[p].key.None? {
      rest, t := LetRootRun(s, p, c);
    } else {
      rest, t := LetChildRun(s, p, c);
    }
  }

  function Phase(pc: Pc): nat {
    match pc
    case HoldsParent(_, _, _) => 3
    case InAgent(_, _, _) => 2
    case AgentFailed(_, _, _) => 1
    case AgentDone(_, _, _, _) => 1
    case _ => 0
  }

  function NextOf(pc: Pc, d: DispatcherId): Action {
    if pc.InAgent? then AgentRaises(d) else Advance(d)
  }

  /** `d` has moved on, past `c`, towards queueing `p` again. */
  ghost predicate GetsOn(s: State, t: State, d: DispatcherId, p: RunId, c: RunId) {
    && Apart(s, t, c) && p in t.st.runs
    && (t.st.runs[p].state.Queued?
        || (Releases(t, d, p) && t.st.runs[p].state.WaitingChild? && d in s.pcs && Phase(t.pcs[d]) < Phase(s.pcs[d])))
  }

  /** `d` will let `p` go, and has nothing to do with `c`. */
  ghost predicate Helps(s: State, d: DispatcherId, p: RunId, c: RunId) {
    && PcOk(s, d) && Releases(s, d, p) && p in s.st.runs && s.st.runs[p].state.WaitingChild?
    && p != c && s.pcs[d].child != p && s.pcs[d].child != c && HolderOk(s.st, s.pcs[d].child)
  }

  lemma AgentGetsOn(s: State, d: DispatcherId, p: RunId, c: RunId)
    requires Helps(s, d, p, c) && (s.pcs[d].HoldsParent? || s.pcs[d].InAgent?)
    ensures Enabled(s, NextOf(s.pcs[d], d)) && GetsOn(s, Apply(s, NextOf(s.pcs[d], d)), d, p, c)
  {
  }

  lemma FailingGetsOn(s: State, d: DispatcherId, p: RunId, c: RunId)
    requires Helps(s, d, p, c) && s.pcs[d].AgentFailed?
    ensures Enabled(s, Advance(d)) && GetsOn(s, AdvanceStep(s, d), d, p, c)
  {
    var x := s.pcs[d].child;
    assert Transition(s.st, x, Failed, Fail(x), s.pcs[d].v, None) == Ok(Moved(s.st, x, Failed, Fail(x), None));
  }

  lemma RecordingGetsOn(s: State, d: DispatcherId, p: RunId, c: RunId)
    requires Helps(s, d, p, c) && s.pcs[d].AgentDone?
    ensures Enabled(s, Advance(d)) && GetsOn(s, AdvanceStep(s, d), d, p, c)
  {
    var x, output := s.pcs[d].child, s.pcs[d].output;
    var to, cmd := RecordedState(RuntimeStatus(output)), RecordCommand(x, RuntimeStatus(output));
    assert Transition(s.st, x, to, cmd, s.pcs[d].v, Some(Envelope(output)))
        == Ok(Moved(s.st, x, to, cmd, Some(Envelope(output))));
  }

  lemma ReleasingGetsOn(s: State, d: DispatcherId, p: RunId, c: RunId)
    requires Helps(s, d, p, c) && s.pcs[d].Resuming?
    ensures Enabled(s, Advance(d)) && GetsOn(s, AdvanceStep(s, d), d, p, c)
  {
    var cmd := ChildDoneQueue(s.pcs[d].child);
    assert Transition(s.st, p, Queued, cmd, s.pcs[d].pv, None) == Ok(Moved(s.st, p, Queued, cmd, None));
  }

  lemma ReleaserGetsOn(s: State, d: DispatcherId, p: RunId, c: RunId)
    requires Helps(s, d, p, c)
    ensures var a := NextOf(s.pcs[d], d); Enabled(s, a) && GetsOn(s, Apply(s, a), d, p, c)
  {
    if s.pcs[d].Resuming? {
      ReleasingGetsOn(s, d, p, c);
    } else if s.pcs[d].AgentDone? {
      RecordingGetsOn(s, d, p, c);
    } else if s.pcs[d].AgentFailed? {
      FailingGetsOn(s, d, p, c);
    } else {
      AgentGetsOn(s, d, p, c);
    }
  }

  /** The dispatcher that can let `p` go does so, by its agent failing if need be. */
  lemma {:induction false} LetWaitingQueue(s: State, d: DispatcherId, p: RunId, c: RunId)
    returns (rest: seq<Action>, t: State)
    requires Core(s) && p != c && !Waited(s.st, c)
    requires Releases(s, d, p) && p in s.st.runs && s.st.runs[p].state.WaitingChild?
    ensures Leads(s, rest, t, c) && p in t.st.runs && t.st.runs[p].state.Queued?
    decreases Phase(s.pcs[d])
  {
    assert PcOk(s, d) && HolderOk(s.st, s.pcs[d].child);
    assert Helps(s, d, p, c);
    ReleaserGetsOn(s, d, p, c);
    var a := NextOf(s.pcs[d], d);
    var u := Apply(s, a);
    StepKeepsCore(s, a);
    rest, t := [], u;
    if !u.st.runs[p].state.Queued? { rest, t := LetWaitingQueue(u, d, p, c); }
    LeadsCons(s, a, u, rest, t, c);
    rest := [a] + rest;
  }

  lemma LeadsOn(s: State, first: seq<Action>, u: State, rest: seq<Action>, t: State, c: RunId)
    requires Leads(s, first, u, c) && Leads(u, rest, t, c)
    ensures Leads(s, first + rest, t, c)
  {
    ContinueThen(s, first, u, rest);
  }

  /** Whoever may run can be brought to, without touching a child that has made nobody wait. */
  lemma LetRun(s: State, p: RunId, c: RunId) returns (rest: seq<Action>, t: State)
    requires Core(s) && p != c && !Waited(s.st, c) && MayRun(s, p)
    ensures Leads(s, rest, t, c) && Runs(t, p)
  {
    if s.st.runs[p].state.Running? {
      rest, t := [], s;
    } else if s.st.runs[p].state.Queued? {
      rest, t := LetQueuedRun(s, p, c);
    } else {
      var first, u := LetQueue(s, p, c);
      rest, t := LetQueuedRun(u, p, c);
      LeadsOn(s, first, u, rest, t, c);
      rest := first + rest;
    }
  }

  /** A waiting run is approved, or released. */
  lemma LetQueue(s: State, p: RunId, c: RunId) returns (rest: seq<Action>, t: State)
    requires Core(s) && p != c && !Waited(s.st, c) && MayRun(s, p)
    requires s.st.runs[p].state.WaitingApproval? || s.st.runs[p].state.WaitingChild?
    ensures Leads(s, rest, t, c) && p in t.st.runs && t.st.runs[p].state.Queued?
  {
    if s.st.runs[p].state.WaitingApproval? {
      var n := FreshSerial(s.st);
      var a := MoveOutside(p, Queued, n);
      t := Apply(s, a);
      StepKeepsCore(s, a);
      LeadsCons(s, a, t, [], t, c);
      rest := [a] + [];
    } else {
      var d :| d in s.pcs && Releases(s, d, p);
      rest, t := LetWaitingQueue(s, d, p, c);
    }
  }

  ghost predicate Revives(s: State, rest: seq<Action>, p: RunId) {
    Continue(s, rest).Some? && Runs(Continue(s, rest).value, p)
  }

  /** In any reachable state, a run runs or can come to run again if and only if `MayRun` says so: a
      waiting parent exactly if a live dispatcher with a valid claim of its child is left to release
      it, and is not about to make the child wait for an approval. */
  lemma RunsAgainIff(states: seq<State>, actions: seq<Action>, i: nat, p: RunId)
    requires IsRun(states, actions) && i < |states| && p in states[i].st.runs
    ensures (exists rest: seq<Action> :: Revives(states[i], rest, p)) <==> MayRun(states[i], p)
  {
    RunKeepsInv(states, actions, i);
    var s := states[i];
    if MayRun(s, p) {
      var c := FreshId(s.st.runs.Keys);
      assert c !in s.st.runs.Keys && HolderOk(s.st, c);
      var rest, t := LetRun(s, p, c);
      assert Revives(s, rest, p);
    } else {
      forall rest: seq<Action> ensures !Revives(s, rest, p) {
        if Continue(s, rest).Some? { ContinueKeepsDead(s, rest, p); }
      }
    }
  }
}
