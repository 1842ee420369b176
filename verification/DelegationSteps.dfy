/** Every step of the delegation protocol keeps the invariant. A step of `d` is shown
    harmless to one other dispatcher `e` at a time, then to `d` itself. */
module DelegationSteps {
  import opened Wrappers
  import opened DispatchResult
  import opened RunStore
  import opened Delegation
  import opened DelegationInvariant

  ghost predicate At(s: State, d: DispatcherId) {
    d in s.pcs && d in s.calls && !Over(s.pcs[d])
  }

  /** `s'` is `s` after `d` moved to `pc` and the run `r` was moved by `cmd`. */
  ghost predicate Stepped(s: State, s': State, d: DispatcherId, pc: Pc,
                          r: RunId, to: RunState, cmd: Command, patch: Option<Object>)
  {
    && At(s, d) && r in s.st.runs && cmd !in s.st.journal
    && Allowed(s.st.runs[r].state, to)
    && s' == s.(st := Moved(s.st, r, to, cmd, patch), pcs := s.pcs[d := pc])
  }

  // ---- claiming ----

  ghost predicate Claims(s: State, s': State, d: DispatcherId, c: RunId) {
    && At(s, d) && s.pcs[d].FoundQueued? && s.pcs[d].child == c
    && IsChild(s.st, c) && s.st.runs[c].state.Queued?
    && Stepped(s, s', d, Claimed(c, s.st.runs[c].version + 1), c, Running, Claim(c, d), None)
  }

  lemma ClaimKeepsOther(s: State, s': State, d: DispatcherId, c: RunId, e: DispatcherId)
    requires PcOk(s, d) && PcOk(s, e) && e != d
    requires Claims(s, s', d, c)
    ensures PcOk(s', e)
  {
  }

  lemma ClaimKeepsAll(s: State, s': State, d: DispatcherId, c: RunId)
    requires HolderOk(s.st, c) && (forall e :: PcOk(s, e)) && Claims(s, s', d, c)
    ensures forall e :: PcOk(s', e)
  {
    forall f | f != d && On(s, f, c)
      ensures !Settling(s.pcs[f])
      ensures PastWait(s.pcs[f]) ==> s.pcs[f].v <= s.st.runs[c].version
    {
      assert PcOk(s, f);
    }
    forall e | e != d ensures PcOk(s', e) { ClaimKeepsOther(s, s', d, c, e); }
  }

  lemma ClaimSucceeds(s: State, s': State, d: DispatcherId, c: RunId)
    requires Core(s) && Claims(s, s', d, c)
    ensures Core(s')
  {
    assert HolderOk(s.st, c);
    PlainMoveKeepsJournal(s.st, c, Running, Claim(c, d), None);
    ClaimKeepsAll(s, s', d, c);
    PlainKeepsRest(s, s', Claim(c, d));
  }

  lemma ClaimStep(s: State, d: DispatcherId)
    requires Core(s) && At(s, d) && s.pcs[d].FoundQueued?
    ensures Core(AdvanceStep(s, d))
  {
    assert PcOk(s, d);
    var c, v := s.pcs[d].child, s.pcs[d].v;
    var s' := AdvanceStep(s, d);
    if Transition(s.st, c, Running, Claim(c, d), v, None).Ok? {
      ClaimSucceeds(s, s', d, c);
    } else {
      QuietStep(s, s', d);
    }
  }

  /** The parts of the invariant about start counts and command ids. */
  lemma PlainKeepsRest(s: State, s': State, cmd: Command)
    requires RestOk(s)
    requires s'.starts == s.starts && s.pcs.Keys <= s'.pcs.Keys && s'.st.runs.Keys == s.st.runs.Keys
    requires forall r <- s.st.runs :: s'.st.runs[r].key == s.st.runs[r].key
    requires cmd !in s.st.journal && s'.st.journal.Keys == s.st.journal.Keys + {cmd}
    requires forall k <- s.st.journal :: s'.st.journal[k] == s.st.journal[k]
    requires cmd.Claim? ==> cmd.winner in s.pcs && s'.st.journal[cmd].run == cmd.child
    requires cmd.Fail? || cmd.Finish? || cmd.WaitApproval? ==> Waited(s.st, cmd.child)
    ensures RestOk(s')
  {
    forall c ensures s'.starts[c] <= 1 && (c in s'.starts ==> Waited(s'.st, c)) {
      assert s.starts[c] <= 1;
    }
    forall c | !Unfinished(s'.st, c) ensures Waited(s'.st, c) {
      if Unfinished(s.st, c) {
        assert cmd == Fail(c) || cmd == Finish(c) || cmd == WaitApproval(c);
      }
    }
    SameKeysKeepRooted(s, s');
  }

  lemma SameKeysKeepRooted(s: State, s': State)
    requires Rooted(s) && s'.starts == s.starts
    requires forall r :: IsChild(s'.st, r) ==> IsChild(s.st, r) && s'.st.runs[r].key == s.st.runs[r].key
    ensures Rooted(s')
  {
    forall c | IsChild(s'.st, c) && IsChild(s'.st, ParentOf(s'.st, c)) ensures ParentOf(s'.st, c) in s'.starts {
      assert ParentOf(s.st, c) == ParentOf(s'.st, c);
    }
  }

  // ---- steps that move no run ----

  /** `d` moves on without touching the store, to a state that binds nobody. */
  lemma QuietStep(s: State, s': State, d: DispatcherId)
    requires Core(s) && At(s, d) && d in s'.pcs
    requires s' == s.(pcs := s.pcs[d := s'.pcs[d]])
    requires Over(s'.pcs[d]) || PcOk(s', d)
    requires !Over(s'.pcs[d]) ==>
      && s'.pcs[d].child == s.pcs[d].child
      && (Entrant(s'.pcs[d]) ==> Entrant(s.pcs[d]))
      && (PastWait(s'.pcs[d]) ==> PastWait(s.pcs[d]) && s'.pcs[d].v == s.pcs[d].v)
      && !Settling(s'.pcs[d])
    ensures Core(s')
  {
    forall e ensures PcOk(s', e) {
      if e != d { QuietKeepsOther(s, s', d, e); }
    }
  }

  lemma QuietKeepsOther(s: State, s': State, d: DispatcherId, e: DispatcherId)
    requires PcOk(s, e) && e != d && At(s, d) && d in s'.pcs
    requires s' == s.(pcs := s.pcs[d := s'.pcs[d]])
    requires !Over(s'.pcs[d]) ==>
      && s'.pcs[d].child == s.pcs[d].child
      && (Entrant(s'.pcs[d]) ==> Entrant(s.pcs[d]))
      && (PastWait(s'.pcs[d]) ==> PastWait(s.pcs[d]) && s'.pcs[d].v == s.pcs[d].v)
      && !Settling(s'.pcs[d])
    ensures PcOk(s', e)
  {
  }

  lemma LookStep(s: State, d: DispatcherId)
    requires Core(s) && At(s, d) && s.pcs[d].Claimed?
    ensures Core(AdvanceStep(s, d))
  {
    var s' := AdvanceStep(s, d);
    assert PcOk(s, d);
    assert HolderOk(s.st, s.pcs[d].child);
    QuietStep(s, s', d);
  }

  /** Coming back from `agent.run`. */
  lemma ReturnStep(s: State, s': State, d: DispatcherId)
    requires Core(s) && d in s.pcs && s.pcs[d].InAgent? && d in s'.pcs
    requires s' == s.(pcs := s.pcs[d := s'.pcs[d]])
    requires s'.pcs[d].AgentDone? || s'.pcs[d].AgentFailed?
    requires s'.pcs[d].child == s.pcs[d].child && s'.pcs[d].v == s.pcs[d].v && s'.pcs[d].pv == s.pcs[d].pv
    ensures Core(s')
  {
    assert PcOk(s, d);
    var c := s.pcs[d].child;
    assert forall f :: f != d ==> On(s', f, c) == On(s, f, c);
    assert PcOk(s', d);
    QuietStep(s, s', d);
  }

  // ---- making the parent wait ----

  lemma WaitKeepsOther(s: State, s': State, d: DispatcherId, c: RunId, p: RunId, pc: Pc, e: DispatcherId)
    requires PcOk(s, d) && PcOk(s, e) && e != d
    requires At(s, d) && s.pcs[d].SawParent? && s.pcs[d].seen.Running? && s.pcs[d].child == c
    requires IsChild(s.st, c) && ParentOf(s.st, c) == p && !Waited(s.st, c)
    requires pc.HoldsParent? && pc.child == c && !Enters(s, e, c)
    requires Stepped(s, s', d, pc, p, WaitingChild, WaitChild(c), None)
    requires e in s.pcs && !Over(s.pcs[e]) ==> HolderOk(s.st, s.pcs[e].child)
    ensures PcOk(s', e)
  {
  }

  lemma WaitKeepsOwn(s: State, s': State, d: DispatcherId, c: RunId, p: RunId)
    requires PcOk(s, d)
    requires At(s, d) && s.pcs[d].SawParent? && s.pcs[d].seen.Running? && s.pcs[d].child == c
    requires IsChild(s.st, c) && ParentOf(s.st, c) == p && MakesWait(s.st, c)
    requires Unfinished(s.st, c) && c !in s.starts
    requires forall f :: f != d && On(s, f, c) ==> !Bound(s.pcs[f])
    requires Stepped(s, s', d, HoldsParent(c, s.pcs[d].v, s.st.runs[p].version + 1),
                     p, WaitingChild, WaitChild(c), None)
    ensures PcOk(s', d)
  {
    assert forall f :: f != d ==> On(s', f, c) == On(s, f, c);
  }

  lemma WaitKeepsAll(s: State, s': State, d: DispatcherId, c: RunId, p: RunId)
    requires (forall x :: HolderOk(s.st, x)) && EndsOk(s.st) && StartsOk(s) && forall e :: PcOk(s, e)
    requires forall e :: Enters(s, e, c) ==> e == d
    requires At(s, d) && s.pcs[d].SawParent? && s.pcs[d].seen.Running? && s.pcs[d].child == c
    requires IsChild(s.st, c) && ParentOf(s.st, c) == p && MakesWait(s.st, c)
    requires Stepped(s, s', d, HoldsParent(c, s.pcs[d].v, s.st.runs[p].version + 1),
                     p, WaitingChild, WaitChild(c), None)
    ensures forall e :: PcOk(s', e)
  {
    forall f | f != d && On(s, f, c) ensures !Bound(s.pcs[f]) { assert PcOk(s, f); }
    WaitKeepsOwn(s, s', d, c, p);
    forall e | e != d ensures PcOk(s', e) {
      assert PcOk(s, e) && PcOk(s, d);
      if e in s.pcs && !Over(s.pcs[e]) { assert HolderOk(s.st, s.pcs[e].child); }
      WaitKeepsOther(s, s', d, c, p, s'.pcs[d], e);
    }
  }

  lemma WaitSucceeds(s: State, s': State, d: DispatcherId, c: RunId, p: RunId)
    requires Core(s) && At(s, d) && s.pcs[d].SawParent? && s.pcs[d].seen.Running? && s.pcs[d].child == c
    requires IsChild(s.st, c) && ParentOf(s.st, c) == p && MakesWait(s.st, c)
    requires forall e :: Enters(s, e, c) ==> e == d
    requires Stepped(s, s', d, HoldsParent(c, s.pcs[d].v, s.st.runs[p].version + 1),
                     p, WaitingChild, WaitChild(c), None)
    ensures Core(s')
  {
    WaitKeepsJournal(s.st, c);
    WaitKeepsAll(s, s', d, c, p);
    PlainKeepsRest(s, s', WaitChild(c));
  }

  /** The one step that rests on there being a single first claimant. */
  lemma WaitStep(s: State, d: DispatcherId)
    requires Core(s) && At(s, d) && s.pcs[d].SawParent? && EntrantsOk(s, s.pcs[d].child)
    ensures Core(AdvanceStep(s, d))
  {
    assert PcOk(s, d);
    var s' := AdvanceStep(s, d);
    var c, v, pv := s.pcs[d].child, s.pcs[d].v, s.pcs[d].pv;
    var p := s.calls[d].key.parent;
    if s.pcs[d].seen.Running? && Transition(s.st, p, WaitingChild, WaitChild(c), pv, None).Ok? {
      assert Enters(s, d, c) && MayRun(s, p);
      WaitSucceeds(s, s', d, c, p);
    } else {
      QuietStep(s, s', d);
    }
  }

  // ---- ending the child ----

  ghost predicate EndsChild(s: State, s': State, d: DispatcherId, c: RunId, pc: Pc,
                            to: RunState, cmd: Command, patch: Option<Object>)
  {
    && At(s, d) && s.pcs[d].child == c && (s.pcs[d].Refused? || PastWait(s.pcs[d]))
    && IsChild(s.st, c) && s.pcs[d].v == s.st.runs[c].version
    && ((cmd == ParentUnavailable(c) && to.Failed?)
        || (PastWait(s.pcs[d]) && (cmd == Fail(c) || cmd == Finish(c) || cmd == WaitApproval(c))))
    && (Terminal(to) || (to.WaitingApproval? && Over(pc)))
    && (Over(pc) || (pc.Resuming? && PastWait(s.pcs[d]) && pc.child == c && pc.pv == s.pcs[d].pv))
    && Stepped(s, s', d, pc, c, to, cmd, patch)
  }

  lemma EndKeepsBystander(s: State, s': State, d: DispatcherId, c: RunId, pc: Pc, to: RunState,
                          cmd: Command, patch: Option<Object>, e: DispatcherId)
    requires PcOk(s, e) && e != d && !On(s, e, c) && EndsChild(s, s', d, c, pc, to, cmd, patch)
    ensures PcOk(s', e)
  {
    if e in s.pcs && !Over(s.pcs[e]) {
      var x := s.pcs[e].child;
      assert x != c && s'.st.runs[x] == s.st.runs[x] && s'.calls == s.calls && s'.starts == s.starts;
      assert forall f :: On(s', f, x) ==> On(s, f, x) && s'.pcs[f] == s.pcs[f];
    }
  }

  lemma EndKeepsRival(s: State, s': State, d: DispatcherId, c: RunId, pc: Pc, to: RunState,
                      cmd: Command, patch: Option<Object>, e: DispatcherId)
    requires PcOk(s, e) && e != d && On(s, e, c) && EndsChild(s, s', d, c, pc, to, cmd, patch)
    requires !Settling(s.pcs[e])
    requires PastWait(s.pcs[d]) ==> Waited(s.st, c) && !Bound(s.pcs[e]) && (Entrant(s.pcs[e]) ==> !Waited(s.st, c))
    ensures PcOk(s', e)
  {
    assert forall f :: f != d ==> On(s', f, c) == On(s, f, c);
    assert s'.pcs[e] == s.pcs[e];
  }

  lemma EndKeepsOther(s: State, s': State, d: DispatcherId, c: RunId, pc: Pc, to: RunState,
                      cmd: Command, patch: Option<Object>, e: DispatcherId)
    requires PcOk(s, d) && PcOk(s, e) && e != d
    requires EndsChild(s, s', d, c, pc, to, cmd, patch)
    ensures PcOk(s', e)
  {
    if On(s, e, c) {
      EndKeepsRival(s, s', d, c, pc, to, cmd, patch, e);
    } else {
      EndKeepsBystander(s, s', d, c, pc, to, cmd, patch, e);
    }
  }

  lemma EndKeepsAll(s: State, s': State, d: DispatcherId, c: RunId, pc: Pc, to: RunState,
                    cmd: Command, patch: Option<Object>)
    requires (forall e :: PcOk(s, e)) && HolderOk(s.st, c)
    requires EndsChild(s, s', d, c, pc, to, cmd, patch)
    ensures forall e :: PcOk(s', e)
  {
    assert PcOk(s, d);
    forall e | e != d ensures PcOk(s', e) {
      EndKeepsOther(s, s', d, c, pc, to, cmd, patch, e);
    }
  }

  lemma EndKeepsJournal(s: State, s': State, d: DispatcherId, c: RunId, pc: Pc, to: RunState,
                        cmd: Command, patch: Option<Object>)
    requires StoreOk(s.st) && JournalOk(s.st) && EndsChild(s, s', d, c, pc, to, cmd, patch)
    requires PcOk(s, d)
    ensures StoreOk(s'.st) && JournalOk(s'.st)
  {
    PlainMoveKeepsJournal(s.st, c, to, cmd, patch);
  }

  lemma EndKeepsRest(s: State, s': State, d: DispatcherId, c: RunId, pc: Pc, to: RunState,
                     cmd: Command, patch: Option<Object>)
    requires RestOk(s) && PcOk(s, d) && EndsChild(s, s', d, c, pc, to, cmd, patch)
    ensures RestOk(s')
  {
    PlainKeepsRest(s, s', cmd);
  }

  lemma EndStep(s: State, s': State, d: DispatcherId, c: RunId, pc: Pc, to: RunState,
                cmd: Command, patch: Option<Object>)
    requires Core(s) && EndsChild(s, s', d, c, pc, to, cmd, patch)
    ensures Core(s')
  {
    EndKeepsJournal(s, s', d, c, pc, to, cmd, patch);
    assert HolderOk(s.st, c) && PcOk(s, d);
    EndKeepsAll(s, s', d, c, pc, to, cmd, patch);
    EndKeepsRest(s, s', d, c, pc, to, cmd, patch);
  }

  /** The parent cannot wait, or the agent has failed. */
  lemma FailStep(s: State, d: DispatcherId)
    requires Core(s) && At(s, d) && (s.pcs[d].Refused? || s.pcs[d].AgentFailed?)
    ensures Core(AdvanceStep(s, d))
  {
    assert PcOk(s, d);
    var s' := AdvanceStep(s, d);
    var c, v := s.pcs[d].child, s.pcs[d].v;
    var cmd := if s.pcs[d].Refused? then ParentUnavailable(c) else Fail(c);
    if cmd !in s.st.journal && Transition(s.st, c, Failed, cmd, v, None).Ok? {
      EndStep(s, s', d, c, s'.pcs[d], Failed, cmd, None);
    } else {
      QuietStep(s, s', d);
    }
  }

  lemma RecordStep(s: State, d: DispatcherId)
    requires Core(s) && At(s, d) && s.pcs[d].AgentDone?
    ensures Core(AdvanceStep(s, d))
  {
    assert PcOk(s, d);
    var s' := AdvanceStep(s, d);
    var c, v, output := s.pcs[d].child, s.pcs[d].v, s.pcs[d].output;
    var status := RuntimeStatus(output);
    var to, cmd := RecordedState(status), RecordCommand(c, status);
    if Transition(s.st, c, to, cmd, v, Some(Envelope(output))).Ok? {
      EndStep(s, s', d, c, s'.pcs[d], to, cmd, Some(Envelope(output)));
    } else {
      QuietStep(s, s', d);
    }
  }

  // ---- entering agent.run ----

  lemma StartKeepsOther(s: State, s': State, d: DispatcherId, e: DispatcherId)
    requires PcOk(s, d) && PcOk(s, e) && e != d
    requires At(s, d) && s.pcs[d].HoldsParent? && s' == AdvanceStep(s, d)
    ensures PcOk(s', e)
  {
  }

  lemma StartStep(s: State, d: DispatcherId)
    requires Core(s) && At(s, d) && s.pcs[d].HoldsParent?
    ensures Core(AdvanceStep(s, d))
  {
    assert PcOk(s, d);
    var s' := AdvanceStep(s, d);
    forall e | e != d ensures PcOk(s', e) { StartKeepsOther(s, s', d, e); }
  }

  // ---- letting the parent go ----

  lemma ReleaseKeepsOther(s: State, s': State, d: DispatcherId, c: RunId, p: RunId, pc: Pc, e: DispatcherId)
    requires PcOk(s, d) && PcOk(s, e) && e != d
    requires At(s, d) && s.pcs[d].Resuming? && s.pcs[d].child == c
    requires IsChild(s.st, c) && ParentOf(s.st, c) == p && p in s.st.runs
    requires pc.Requeued? && pc.child == c
    requires Stepped(s, s', d, pc, p, Queued, ChildDoneQueue(c), None)
    requires s.st.runs[p].state.WaitingChild?
    ensures PcOk(s', e)
  {
  }

  lemma ReleaseKeepsAll(s: State, s': State, d: DispatcherId, c: RunId, p: RunId, pc: Pc)
    requires forall e :: PcOk(s, e)
    requires At(s, d) && s.pcs[d].Resuming? && s.pcs[d].child == c
    requires IsChild(s.st, c) && ParentOf(s.st, c) == p && p in s.st.runs && p != c
    requires pc.Requeued? && pc.child == c && s.st.runs[p].state.WaitingChild?
    requires Stepped(s, s', d, pc, p, Queued, ChildDoneQueue(c), None)
    ensures forall e :: PcOk(s', e)
  {
    assert PcOk(s, d);
    forall e | e != d ensures PcOk(s', e) { ReleaseKeepsOther(s, s', d, c, p, pc, e); }
  }

  lemma ReleaseSucceeds(s: State, s': State, d: DispatcherId, c: RunId, p: RunId, pc: Pc)
    requires Core(s) && At(s, d) && s.pcs[d].Resuming? && s.pcs[d].child == c
    requires IsChild(s.st, c) && ParentOf(s.st, c) == p && p != c && LetsGo(s.st, c)
    requires pc.Requeued? && pc.child == c
    requires Stepped(s, s', d, pc, p, Queued, ChildDoneQueue(c), None)
    ensures Core(s')
  {
    ReleaseKeepsJournal(s.st, c);
    ReleaseKeepsAll(s, s', d, c, p, pc);
    PlainKeepsRest(s, s', ChildDoneQueue(c));
  }

  lemma ReleaseStep(s: State, d: DispatcherId)
    requires Core(s) && At(s, d) && s.pcs[d].Resuming?
    ensures Core(AdvanceStep(s, d))
  {
    assert PcOk(s, d);
    var s' := AdvanceStep(s, d);
    var c, pv := s.pcs[d].child, s.pcs[d].pv;
    var p := s.calls[d].key.parent;
    if Transition(s.st, p, Queued, ChildDoneQueue(c), pv, None).Ok? {
      assert HolderOk(s.st, c);
      ReleaseSucceeds(s, s', d, c, p, s'.pcs[d]);
    } else {
      QuietStep(s, s', d);
    }
  }

  // ---- moves of runs by anyone else ----

  /** A move that ends a run, or starts, finishes or requeues one nobody dispatches. */
  ghost predicate MovesRun(s: State, s': State, r: RunId, to: RunState, cmd: Command) {
    && r in s.st.runs && Allowed(s.st.runs[r].state, to) && cmd !in s.st.journal
    && !cmd.Claim? && !cmd.WaitChild? && !cmd.ChildDoneQueue?
    && !cmd.Fail? && !cmd.Finish? && !cmd.WaitApproval?
    && KeepsHolders(s.st, r, to, cmd)
    && (s.st.runs[r].key.Some? ==>
          to.Failed? || to.Cancelled? || (s.st.runs[r].state.Queued? && to.Running? && r in s.starts))
    && s' == s.(st := Moved(s.st, r, to, cmd, None))
  }

  lemma MoveKeepsPc(s: State, s': State, r: RunId, to: RunState, cmd: Command, e: DispatcherId)
    requires PcOk(s, e)
    requires MovesRun(s, s', r, to, cmd)
    requires e in s.pcs && !Over(s.pcs[e]) ==> HolderOk(s.st, s.pcs[e].child)
    ensures PcOk(s', e)
  {
  }

  lemma MoveStep(s: State, s': State, r: RunId, to: RunState, cmd: Command)
    requires Core(s) && MovesRun(s, s', r, to, cmd)
    ensures Core(s')
  {
    PlainMoveKeepsJournal(s.st, r, to, cmd, None);
    forall e ensures PcOk(s', e) {
      assert PcOk(s, e);
      if e in s.pcs && !Over(s.pcs[e]) { assert HolderOk(s.st, s.pcs[e].child); }
      MoveKeepsPc(s, s', r, to, cmd, e);
    }
    PlainKeepsRest(s, s', cmd);
  }

  /** The parent, queued by `d`, runs again. */
  lemma RerunStep(s: State, d: DispatcherId)
    requires Core(s) && At(s, d) && s.pcs[d].Requeued?
    ensures Core(AdvanceStep(s, d))
  {
    assert PcOk(s, d);
    var s' := AdvanceStep(s, d);
    var c, pv := s.pcs[d].child, s.pcs[d].pv;
    var p := s.calls[d].key.parent;
    var cmd := ChildDoneRun(c);
    if cmd !in s.st.journal && Transition(s.st, p, Running, cmd, pv, None).Ok? {
      var mid := Goto(s, d, s'.pcs[d]);
      QuietStep(s, mid, d);
      MoveStep(mid, s', p, Running, cmd);
    } else {
      QuietStep(s, s', d);
    }
  }

  lemma RequeueKeepsPc(s: State, s': State, r: RunId, n: nat, e: DispatcherId)
    requires PcOk(s, e)
    requires r in s.st.runs && s.st.runs[r].state.Running? && Outside(n) !in s.st.journal
    requires s' == s.(st := Moved(s.st, r, Queued, Outside(n), None))
    ensures PcOk(s', e)
  {
  }

  /** Recovery touches any running run. */
  lemma ReconcileStep(s: State, r: RunId, n: nat)
    requires Core(s) && EnabledBesideDispatchers(s, Reconcile(r, n))
    ensures Core(Apply(s, Reconcile(r, n)))
  {
    var s' := Apply(s, Reconcile(r, n));
    RequeueKeepsJournal(s.st, r, n);
    PlainKeepsRest(s, s', Outside(n));
    forall e ensures PcOk(s', e) {
      assert PcOk(s, e);
      RequeueKeepsPc(s, s', r, n, e);
    }
  }

  lemma RequeueKeepsJournal(st: Store, r: RunId, n: nat)
    requires StoreOk(st) && JournalOk(st) && r in st.runs && st.runs[r].state.Running?
    requires Outside(n) !in st.journal
    ensures StoreOk(Moved(st, r, Queued, Outside(n), None))
    ensures JournalOk(Moved(st, r, Queued, Outside(n), None))
  {
    var st' := Moved(st, r, Queued, Outside(n), None);
    MovedKeepsStoreOk(st, r, Queued, Outside(n), None);
    forall c ensures HolderOk(st', c) { RequeueKeepsHolder(st, r, n, c); }
    assert OneHolder(st') by {
      assert forall c :: Holds(st', c) ==> Holds(st, c);
    }
    forall p | p in st'.runs && st'.runs[p].state.WaitingChild? ensures HasHolder(st', p) {
      HasHolderKept(st, st', p);
    }
  }

  lemma RequeueKeepsHolder(st: Store, r: RunId, n: nat, c: RunId)
    requires StoreOk(st) && HolderOk(st, c) && r in st.runs && st.runs[r].state.Running?
    ensures StoreOk(Moved(st, r, Queued, Outside(n), None))
    ensures HolderOk(Moved(st, r, Queued, Outside(n), None), c)
  {
    MovedKeepsStoreOk(st, r, Queued, Outside(n), None);
  }

  // ---- new runs and new dispatchers ----

  /** The store with one more run in it. */
  ghost predicate Grown(st: Store, st': Store, r: RunId) {
    && r !in st.runs && r in st'.runs && st'.runs == st.runs[r := st'.runs[r]]
    && st'.runs[r].state.Queued? && st'.journal == st.journal
  }

  lemma GrowthKeepsHolder(st: Store, st': Store, r: RunId, c: RunId)
    requires StoreOk(st) && StoreOk(st') && HolderOk(st, c) && Grown(st, st', r)
    ensures HolderOk(st', c)
  {
  }

  lemma GrowthKeepsOneHolder(st: Store, st': Store, r: RunId)
    requires StoreOk(st) && StoreOk(st') && OneHolder(st) && Grown(st, st', r) && !Holds(st, r)
    ensures OneHolder(st')
  {
    forall c, c' | IsChild(st', c) && IsChild(st', c') && Holds(st', c) && Holds(st', c')
                   && ParentOf(st', c) == ParentOf(st', c')
      ensures c == c'
    {
      assert Holds(st, c) && Holds(st, c');
      assert IsChild(st, c) && IsChild(st, c');
    }
  }

  lemma GrowthKeepsJournal(st: Store, st': Store, r: RunId)
    requires StoreOk(st) && StoreOk(st') && JournalOk(st) && Grown(st, st', r)
    ensures JournalOk(st')
  {
    forall c ensures HolderOk(st', c) { GrowthKeepsHolder(st, st', r, c); }
    assert !Holds(st, r) by { assert HolderOk(st, r); }
    GrowthKeepsOneHolder(st, st', r);
    forall p | p in st'.runs && st'.runs[p].state.WaitingChild? ensures HasHolder(st', p) {
      HasHolderKept(st, st', p);
    }
  }

  lemma GrowthKeepsPc(s: State, s': State, r: RunId, d: DispatcherId, e: DispatcherId)
    requires StoreOk(s.st) && PcOk(s, e) && Grown(s.st, s'.st, r)
    requires s'.starts == s.starts
    requires (s'.pcs == s.pcs && s'.calls == s.calls)
      || (d !in s.pcs && d in s'.pcs && d in s'.calls && s'.pcs == s.pcs[d := s'.pcs[d]]
          && s'.calls == s.calls[d := s'.calls[d]] && (Over(s'.pcs[d]) || s'.pcs[d].FoundQueued?))
    requires e in s.pcs
    ensures PcOk(s', e)
  {
  }

  lemma SameJournalKeepsRest(s: State, s': State)
    requires RestOk(s)
    requires s'.starts == s.starts && s.pcs.Keys <= s'.pcs.Keys && s'.st.journal == s.st.journal
    requires Rooted(s')
    ensures RestOk(s')
  {
    forall c ensures s'.starts[c] <= 1 && (c in s'.starts ==> Waited(s'.st, c)) {
      assert s.starts[c] <= 1;
    }
    assert forall c :: Unfinished(s'.st, c) == Unfinished(s.st, c) && Waited(s'.st, c) == Waited(s.st, c);
  }

  lemma GrowthKeepsPcs(s: State, s': State, r: RunId)
    requires StoreOk(s.st) && Grown(s.st, s'.st, r) && s' == s.(st := s'.st)
    requires forall e :: PcOk(s, e)
    ensures forall e :: PcOk(s', e)
  {
    forall e | e in s.pcs ensures PcOk(s', e) {
      assert PcOk(s, e);
      GrowthKeepsPc(s, s', r, 0, e);
    }
  }

  lemma NewRunStep(s: State, r: RunId, who: Principal)
    requires Core(s) && r !in s.st.runs
    ensures Core(Apply(s, NewRun(r, who)))
  {
    var s' := Apply(s, NewRun(r, who));
    GrowthKeepsJournal(s.st, s'.st, r);
    SameKeysKeepRooted(s, s');
    SameJournalKeepsRest(s, s');
    GrowthKeepsPcs(s, s', r);
  }

  /** A new dispatcher that found or created nothing to move. */
  lemma ArrivalKeepsPc(s: State, s': State, d: DispatcherId, e: DispatcherId)
    requires PcOk(s, e) && s'.st == s.st && s'.starts == s.starts
    requires d !in s.pcs && d in s'.pcs && d in s'.calls && s'.pcs == s.pcs[d := s'.pcs[d]]
    requires s'.calls == s.calls[d := s'.calls[d]] && (Over(s'.pcs[d]) || s'.pcs[d].FoundQueued?)
    requires e in s.pcs
    ensures PcOk(s', e)
  {
  }

  /** A new dispatcher leaves the journal and all stored runs as they are. */
  lemma BeginAddsOnly(s: State, d: DispatcherId, call: Spec)
    ensures var t := BeginStep(s, d, call);
            && t.st.journal == s.st.journal && t.starts == s.starts && t.calls == s.calls[d := call]
            && (forall r <- s.st.runs :: r != call.candidate || t.st == s.st ==>
                  r in t.st.runs && t.st.runs[r] == s.st.runs[r])
            && (call.candidate in s.st.runs ==> t.st == s.st)
            && d in t.pcs && t.pcs == s.pcs[d := t.pcs[d]] && (Over(t.pcs[d]) || t.pcs[d].FoundQueued?)
  {
    match CreateOrGet(s.st, call)
    case Err(_) =>
    case Ok(_) =>
  }

  lemma ArrivalIsOk(s: State, d: DispatcherId, call: Spec)
    requires StoreOk(s.st) && d !in s.pcs && MayDelegate(s, call.key.parent)
    requires forall x :: Claim(x, d) !in s.st.journal
    ensures PcOk(BeginStep(s, d, call), d)
  {
  }

  lemma BeginKeepsOthers(s: State, d: DispatcherId, call: Spec)
    requires Core(s) && Enabled(s, Begin(d, call))
    ensures var s' := BeginStep(s, d, call);
            StoreOk(s'.st) && JournalOk(s'.st) && forall e :: e in s.pcs ==> PcOk(s', e)
  {
    var s' := BeginStep(s, d, call);
    if s'.st == s.st {
      forall e | e in s.pcs ensures PcOk(s', e) {
        assert PcOk(s, e);
        ArrivalKeepsPc(s, s', d, e);
      }
    } else {
      BeginCreates(s, s', d, call);
    }
  }

  /** A run that is created under a delegated one finds its parent started. */
  lemma BeginKeepsRooted(s: State, d: DispatcherId, call: Spec)
    requires StoreOk(s.st) && Rooted(s) && MayDelegate(s, call.key.parent)
    ensures Rooted(BeginStep(s, d, call))
  {
  }

  lemma BeginKeepsRest(s: State, d: DispatcherId, call: Spec)
    requires RestOk(s) && Rooted(BeginStep(s, d, call))
    ensures RestOk(BeginStep(s, d, call))
  {
    BeginAddsOnly(s, d, call);
    SameJournalKeepsRest(s, BeginStep(s, d, call));
  }

  lemma BeginKeepsCore(s: State, d: DispatcherId, call: Spec)
    requires Core(s) && Enabled(s, Begin(d, call))
    ensures Core(BeginStep(s, d, call))
  {
    var s' := BeginStep(s, d, call);
    BeginKeepsRooted(s, d, call);
    BeginKeepsRest(s, d, call);
    BeginKeepsOthers(s, d, call);
    ArrivalIsOk(s, d, call);
    OnlyArrivals(s, s', d, call);
  }

  lemma OnlyArrivals(s: State, s': State, d: DispatcherId, call: Spec)
    requires s' == BeginStep(s, d, call) && PcOk(s', d)
    requires forall e :: e in s.pcs ==> PcOk(s', e)
    ensures forall e :: PcOk(s', e)
  {
    forall e ensures PcOk(s', e) {
      if e !in s.pcs && e != d { assert e !in s'.pcs; }
    }
  }

  lemma BeginCreates(s: State, s': State, d: DispatcherId, call: Spec)
    requires Core(s) && Enabled(s, Begin(d, call))
    requires s' == BeginStep(s, d, call) && s'.st != s.st
    ensures StoreOk(s'.st) && JournalOk(s'.st)
    ensures forall e :: e in s.pcs ==> PcOk(s', e)
  {
    var c := call.candidate;
    CreationKeepsStoreOk(s.st, call);
    GrowthKeepsJournal(s.st, s'.st, c);
    forall e | e in s.pcs ensures PcOk(s', e) {
      assert PcOk(s, e);
      GrowthKeepsPc(s, s', c, d, e);
    }
  }

  lemma CreationKeepsStoreOk(st: Store, call: Spec)
    requires StoreOk(st) && CreateOrGet(st, call).Ok?
    ensures StoreOk(CreateOrGet(st, call).value.store)
  {
  }

  // ---- all of them ----

  lemma AdvanceKeepsCore(s: State, d: DispatcherId)
    requires Core(s) && At(s, d) && !s.pcs[d].InAgent?
    requires s.pcs[d].SawParent? ==> EntrantsOk(s, s.pcs[d].child)
    ensures Core(AdvanceStep(s, d))
  {
    match s.pcs[d]
    case FoundQueued(_, _) => ClaimStep(s, d);
    case Claimed(_, _) => LookStep(s, d);
    case SawParent(_, _, _, _) => WaitStep(s, d);
    case Refused(_, _, _) => FailStep(s, d);
    case HoldsParent(_, _, _) => StartStep(s, d);
    case AgentFailed(_, _, _) => FailStep(s, d);
    case AgentDone(_, _, _, _) => RecordStep(s, d);
    case Resuming(_, _, _) => ReleaseStep(s, d);
    case Requeued(_, _, _) => RerunStep(s, d);
  }

  lemma StepKeepsCore(s: State, a: Action)
    requires Core(s) && EnabledBesideDispatchers(s, a)
    requires a.Advance? && s.pcs[a.d].SawParent? ==> EntrantsOk(s, s.pcs[a.d].child)
    ensures Core(Apply(s, a))
  {
    match a
    case Begin(d, call) => BeginKeepsCore(s, d, call);
    case Advance(d) => AdvanceKeepsCore(s, d);
    case AgentReturns(d, output) => ReturnStep(s, Apply(s, a), d);
    case AgentRaises(d) => ReturnStep(s, Apply(s, a), d);
    case Crash(d) => assert PcOk(s, d); QuietStep(s, Apply(s, a), d);
    case NewRun(r, who) => NewRunStep(s, r, who);
    case MoveOutside(r, to, n) => MoveStep(s, Apply(s, a), r, to, Outside(n));
    case Reconcile(r, n) => ReconcileStep(s, r, n);
  }
}
