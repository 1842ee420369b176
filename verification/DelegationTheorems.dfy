/** What delegation guarantees over every run of the system. */
module DelegationTheorems {
  import opened Wrappers
  import opened DispatchResult
  import opened RunStore
  import opened Delegation
  import opened DelegationInvariant
  import opened DelegationSteps
  import opened DelegationClaims

  // ---- agent.run ----

  /** No interleaving, crash, replay or restart enters `agent.run` twice for one child. */
  lemma AgentRunStartsAtMostOnce(states: seq<State>, actions: seq<Action>, i: nat, c: RunId)
    requires IsRun(states, actions) && i < |states|
    ensures states[i].starts[c] <= 1
  {
    RunKeepsInv(states, actions, i);
  }

  /** Before its claim succeeded a dispatcher neither starts the agent nor changes any
      run but the child it tries to claim; when the claim fails it changes nothing. */
  lemma LosersChangeNothing(states: seq<State>, actions: seq<Action>, i: nat, d: DispatcherId)
    requires IsRun(states, actions) && i < |states| && At(states[i], d) && !states[i].pcs[d].InAgent?
    requires Claim(states[i].pcs[d].child, d) !in states[i].st.journal
    ensures var s, s' := states[i], AdvanceStep(states[i], d);
            && s'.starts == s.starts
            && s'.st.runs.Keys == s.st.runs.Keys
            && (forall r <- s.st.runs :: r != s.pcs[d].child ==> s'.st.runs[r] == s.st.runs[r])
            && (Claim(s.pcs[d].child, d) !in s'.st.journal ==> s'.st == s.st && Over(s'.pcs[d]))
  {
    RunKeepsInv(states, actions, i);
    assert PcOk(states[i], d);
  }

  // ---- parent and child ----

  ghost predicate HeldBy(st: Store, p: RunId, c: RunId) {
    IsChild(st, c) && ParentOf(st, c) == p && Holds(st, c)
  }

  /** A waiting parent is held by exactly one child, and a running one by none: every
      child that ever made it wait has ended. */
  lemma ParentsHaveOneHolder(states: seq<State>, actions: seq<Action>, i: nat, p: RunId)
    requires IsRun(states, actions) && i < |states| && p in states[i].st.runs
    ensures var st := states[i].st;
            && (forall c, c' :: HeldBy(st, p, c) && HeldBy(st, p, c') ==> c == c')
            && (st.runs[p].state.WaitingChild? ==> exists c :: HeldBy(st, p, c))
            && (st.runs[p].state.Running? ==>
                  forall c :: IsChild(st, c) && ParentOf(st, c) == p && Waited(st, c) ==>
                    Terminal(st.runs[c].state))
  {
    RunKeepsInv(states, actions, i);
    var st := states[i].st;
    if st.runs[p].state.WaitingChild? {
      assert HasHolder(st, p);
      var c :| IsChild(st, c) && ParentOf(st, c) == p && Holds(st, c);
      assert HeldBy(st, p, c);
    }
    forall c | IsChild(st, c) && ParentOf(st, c) == p && Waited(st, c) && st.runs[p].state.Running?
      ensures Terminal(st.runs[c].state)
    {
      assert HolderOk(st, c);
    }
  }

  // ---- outcomes ----

  /** A run after its outcome is recorded: untouched, or a waiting approval refused. */
  ghost predicate Settled(r: Run) { Terminal(r.state) || r.state.WaitingApproval? }

  ghost predicate KeptSettled(r: Run, r': Run) {
    r' == r || (r.state.WaitingApproval? && (r'.state.Failed? || r'.state.Cancelled?)
                && r'.key == r.key && r'.envelope == r.envelope)
  }

  lemma AdvanceKeepsSettled(s: State, d: DispatcherId, c: RunId)
    requires PcOk(s, d) && At(s, d) && !s.pcs[d].InAgent?
    requires IsChild(s.st, c) && Settled(s.st.runs[c])
    requires HolderOk(s.st, s.pcs[d].child)
    ensures c in AdvanceStep(s, d).st.runs && KeptSettled(s.st.runs[c], AdvanceStep(s, d).st.runs[c])
  {
    var moved, r, to, cmd, patch := AdvanceMoves(s, d);
  }

  lemma SettledRunKept(s: State, a: Action, c: RunId)
    requires Inv(s) && Enabled(s, a) && IsChild(s.st, c) && Settled(s.st.runs[c])
    ensures c in Apply(s, a).st.runs && KeptSettled(s.st.runs[c], Apply(s, a).st.runs[c])
  {
    if a.Advance? {
      assert PcOk(s, a.d);
      assert HolderOk(s.st, s.pcs[a.d].child);
      AdvanceKeepsSettled(s, a.d, c);
    } else {
      QuietKeepsSettled(s, a, c);
    }
  }

  lemma QuietKeepsSettled(s: State, a: Action, c: RunId)
    requires Enabled(s, a) && !a.Advance? && IsChild(s.st, c) && Settled(s.st.runs[c])
    ensures c in Apply(s, a).st.runs && KeptSettled(s.st.runs[c], Apply(s, a).st.runs[c])
  {
    if a.Begin? { BeginAddsOnly(s, a.d, a.call); }
  }

  /** Ended runs never change again. */
  lemma {:induction false} EndedRunsNeverChange(states: seq<State>, actions: seq<Action>, i: nat, j: nat, c: RunId)
    requires IsRun(states, actions) && i <= j < |states|
    requires IsChild(states[i].st, c) && Terminal(states[i].st.runs[c].state)
    ensures IsChild(states[j].st, c)
    ensures states[j].st.runs[c] == states[i].st.runs[c]
    decreases j
  {
    if i < j {
      EndedRunsNeverChange(states, actions, i, j - 1, c);
      RunKeepsInv(states, actions, j - 1);
      assert Follows(states, actions, j - 1);
      SettledRunKept(states[j - 1], actions[j - 1], c);
    }
  }

  function OutcomeOf(pc: Pc): Option<Outcome> {
    match pc
    case Resuming(_, _, o) => Some(o)
    case Requeued(_, _, o) => Some(o)
    case Done(o) => Some(o)
    case _ => None
  }

  /** The state a run is in after its first caller reported `status`. */
  ghost predicate Fits(state: RunState, status: string) {
    if status == "waiting_approval" then state.WaitingApproval? || state.Failed? || state.Cancelled?
    else state == RecordedState(status)
  }

  /** What the winner of the claim returns, or is about to, is what the run stores. */
  ghost predicate ReplyOk(s: State, d: DispatcherId) {
    d in s.pcs && OutcomeOf(s.pcs[d]).Some? && OutcomeOf(s.pcs[d]).value.Returned? ==>
      var r := OutcomeOf(s.pcs[d]).value.reply;
      && d in s.calls
      && (!s.pcs[d].Done? ==> r.run == s.pcs[d].child)
      && (Claim(r.run, d) in s.st.journal ==>
            && IsChild(s.st, r.run)
            && s.st.runs[r.run].key == Some(s.calls[d].key)
            && r.parent == s.calls[d].key.parent && r.target == s.calls[d].key.target
            && s.st.runs[r.run].envelope.Some?
            && r.report == ReplayReport(s.st.runs[r.run].envelope.value, r.report.status)
            && Fits(s.st.runs[r.run].state, r.report.status))
  }

  lemma OthersAdvance(s: State, e: DispatcherId, d: DispatcherId)
    requires PcOk(s, e) && At(s, e) && !s.pcs[e].InAgent? && d != e
    requires HolderOk(s.st, s.pcs[e].child)
    ensures forall x :: Claim(x, d) in AdvanceStep(s, e).st.journal ==> Claim(x, d) in s.st.journal
  {
    var moved, r, to, cmd, patch := AdvanceMoves(s, e);
  }

  /** Nobody else's step makes a claim for `d`. */
  lemma OthersClaimNot(s: State, a: Action, d: DispatcherId)
    requires Inv(s) && Enabled(s, a) && Aside(a, d)
    ensures forall x :: Claim(x, d) in Apply(s, a).st.journal ==> Claim(x, d) in s.st.journal
  {
    if a.Advance? {
      assert PcOk(s, a.d) && HolderOk(s.st, s.pcs[a.d].child);
      OthersAdvance(s, a.d, d);
    } else if a.Begin? {
      BeginAddsOnly(s, a.d, a.call);
    }
  }

  lemma OthersReplyKept(s: State, t: State, d: DispatcherId)
    requires ReplyOk(s, d) && SameFor(s, t, d)
    requires forall x :: Claim(x, d) in t.st.journal ==> Claim(x, d) in s.st.journal
    requires forall c :: IsChild(s.st, c) && Settled(s.st.runs[c]) ==>
      c in t.st.runs && KeptSettled(s.st.runs[c], t.st.runs[c])
    ensures ReplyOk(t, d)
  {
  }

  lemma OthersReplyKeptByStep(s: State, a: Action, d: DispatcherId)
    requires Inv(s) && Enabled(s, a) && ReplyOk(s, d) && Aside(a, d)
    ensures ReplyOk(Apply(s, a), d)
  {
    var t := Apply(s, a);
    AsideStays(s, a, d);
    OthersClaimNot(s, a, d);
    forall c | IsChild(s.st, c) && Settled(s.st.runs[c])
      ensures c in t.st.runs && KeptSettled(s.st.runs[c], t.st.runs[c])
    {
      SettledRunKept(s, a, c);
    }
    OthersReplyKept(s, t, d);
  }

  /** The winner records what it is about to return. */
  lemma OwnReplyRecorded(s: State, d: DispatcherId)
    requires PcOk(s, d) && At(s, d) && s.pcs[d].AgentDone?
    ensures ReplyOk(AdvanceStep(s, d), d)
  {
    var output := s.pcs[d].output;
    ReplayReadsBackFirstReport(output, RuntimeStatus(output));
  }

  lemma OwnReplyKept(s: State, d: DispatcherId)
    requires Inv(s) && At(s, d) && !s.pcs[d].InAgent? && ReplyOk(s, d)
    ensures ReplyOk(AdvanceStep(s, d), d)
  {
    assert PcOk(s, d);
    if s.pcs[d].AgentDone? {
      OwnReplyRecorded(s, d);
    } else if Settling(s.pcs[d]) {
      SettledRunKept(s, Advance(d), s.pcs[d].child);
    } else {
      NoReplyYet(s, d);
    }
  }

  /** Before the agent has returned there is nothing to return. */
  lemma NoReplyYet(s: State, d: DispatcherId)
    requires At(s, d) && !s.pcs[d].AgentDone? && !Settling(s.pcs[d])
    ensures OutcomeOf(AdvanceStep(s, d).pcs[d]).Some? ==> OutcomeOf(AdvanceStep(s, d).pcs[d]).value.Raised?
  {
  }

  lemma ReplyKept(s: State, a: Action, d: DispatcherId)
    requires Inv(s) && Enabled(s, a) && ReplyOk(s, d)
    ensures ReplyOk(Apply(s, a), d)
  {
    if Aside(a, d) {
      OthersReplyKeptByStep(s, a, d);
    } else if a.Advance? {
      OwnReplyKept(s, d);
    } else if a.Begin? {
      assert forall x :: Claim(x, d) !in s.st.journal;
    }
  }

  lemma {:induction false} RunKeepsReplies(states: seq<State>, actions: seq<Action>, i: nat, d: DispatcherId)
    requires IsRun(states, actions) && i < |states|
    ensures ReplyOk(states[i], d)
    decreases i
  {
    if i > 0 {
      RunKeepsReplies(states, actions, i - 1, d);
      RunKeepsInv(states, actions, i - 1);
      assert Follows(states, actions, i - 1);
      ReplyKept(states[i - 1], actions[i - 1], d);
    }
  }

  lemma FinishedKept(s: State, a: Action, d: DispatcherId)
    requires Inv(s) && Enabled(s, a) && d in s.pcs && s.pcs[d].Done? && d in s.calls
    ensures SameFor(s, Apply(s, a), d) && s.st.journal.Keys <= Apply(s, a).st.journal.Keys
  {
    AsideStays(s, a, d);
    JournalGrows(s, a);
  }

  lemma {:induction false} FinishedStaysFinished(states: seq<State>, actions: seq<Action>, i: nat, j: nat,
                                                 d: DispatcherId)
    requires IsRun(states, actions) && i <= j < |states|
    requires d in states[i].pcs && states[i].pcs[d].Done? && d in states[i].calls
    ensures d in states[j].pcs
    ensures states[j].pcs[d] == states[i].pcs[d]
    ensures d in states[j].calls
    ensures states[j].calls[d] == states[i].calls[d]
    ensures states[i].st.journal.Keys <= states[j].st.journal.Keys
    decreases j
  {
    if i < j {
      FinishedStaysFinished(states, actions, i, j - 1, d);
      RunKeepsInv(states, actions, j - 1);
      assert Follows(states, actions, j - 1);
      FinishedKept(states[j - 1], actions[j - 1], d);
    }
  }

  /** Once the winner `d` has returned, every later dispatch `e` for the same key and
      principal leaves all runs alone and, unless an approval was refused meanwhile,
      returns the same reply with the status read from the run state. That is the very
      reply of the first caller exactly when the agent runtime reported one of its
      three declared outcomes. */
  lemma ReplayReturnsFirstReply(states: seq<State>, actions: seq<Action>, i: nat, j: nat,
                                d: DispatcherId, e: DispatcherId, call: Spec)
    requires IsRun(states, actions) && i <= j < |actions| && actions[j] == Begin(e, call)
    requires d in states[i].pcs && d in states[i].calls
    requires states[i].pcs[d].Done? && states[i].pcs[d].outcome.Returned?
    requires Claim(states[i].pcs[d].outcome.reply.run, d) in states[i].st.journal
    requires call.key == states[i].calls[d].key
    requires var c := states[i].pcs[d].outcome.reply.run;
             c in states[j].st.runs && states[j].st.runs[c].principal == call.principal
    ensures var first := states[i].pcs[d].outcome.reply;
            var state := states[j].st.runs[first.run].state;
            var last := states[j + 1];
            && last.st == states[j].st && last.starts == states[j].starts
            && e in last.pcs
            && (if state.Failed? || state.Cancelled? then
                  first.report.status == "waiting_approval" && last.pcs[e] == Done(Raised(ChildEnded))
                else
                  && last.pcs[e] == Done(Returned(first.(report := first.report.(status := StateName(state)))))
                  && (last.pcs[e] == states[i].pcs[d] <==>
                        first.report.status in ["succeeded", "exhausted", "waiting_approval"]))
  {
    FinishedStaysFinished(states, actions, i, j, d);
    RunKeepsInv(states, actions, j);
    assert Follows(states, actions, j);
    RunKeepsReplies(states, actions, j, d);
    var c := states[i].pcs[d].outcome.reply.run;
    assert states[j].st.index[call.key] == c;
  }

  /** What a call meets whose key is in use: another principal is refused; a child still queued may be
      claimed; a running one is in progress and a failed or cancelled one has ended, which are errors; of any
      other the recorded result is returned. In no case does a run change. */
  lemma RepeatedCallMeets(states: seq<State>, actions: seq<Action>, j: nat, e: DispatcherId, call: Spec)
    requires IsRun(states, actions) && j < |actions| && actions[j] == Begin(e, call)
    requires call.key in states[j].st.index
    ensures var s, t, c := states[j], states[j + 1], states[j].st.index[call.key];
            && t.st == s.st && t.starts == s.starts && e in t.pcs && c in s.st.runs
            && var run, pc := s.st.runs[c], t.pcs[e];
               && (pc == Done(Raised(Conflict)) <==> run.principal != call.principal)
               && (run.principal == call.principal ==>
                     && (pc == FoundQueued(c, run.version) <==> run.state == Queued)
                     && (pc == Done(Raised(InProgress)) <==> run.state == Running)
                     && (pc == Done(Raised(ChildEnded)) <==> run.state == Failed || run.state == Cancelled)
                     && (run.state in [Succeeded, Exhausted, WaitingChild, WaitingApproval] ==>
                           && pc.Done? && pc.outcome.Returned?
                           && pc.outcome.reply.parent == call.key.parent && pc.outcome.reply.run == c
                           && pc.outcome.reply.target == call.key.target
                           && pc.outcome.reply.report.status == match run.state
                                                                case Succeeded => "succeeded"
                                                                case Exhausted => "exhausted"
                                                                case WaitingChild => "waiting_child"
                                                                case _ => "waiting_approval"))
  {
    RunKeepsInv(states, actions, j);
    assert Follows(states, actions, j);
    assert call.key in states[j].st.index;
  }
}
