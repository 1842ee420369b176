/** The invariant behind the safety of delegation, and its preservation by every step. */
module DelegationInvariant {
  import opened Wrappers
  import opened DispatchResult
  import opened RunStore
  import opened Delegation

  // ---- the store ----

  ghost predicate IsChild(st: Store, c: RunId) {
    c in st.runs && st.runs[c].key.Some?
  }

  function ParentOf(st: Store, c: RunId): RunId
    requires IsChild(st, c)
  {
    st.runs[c].key.value.parent
  }

  ghost predicate StoreOk(st: Store) {
    && (forall k <- st.index :: st.index[k] in st.runs && st.runs[st.index[k]].key == Some(k))
    && (forall c <- st.runs :: IsChild(st, c) ==>
          && st.runs[c].key.value in st.index && st.index[st.runs[c].key.value] == c
          && ParentOf(st, c) in st.runs && ParentOf(st, c) != c)
  }

  ghost predicate Waited(st: Store, c: RunId) { WaitChild(c) in st.journal }

  ghost predicate Released(st: Store, c: RunId) { ChildDoneQueue(c) in st.journal }

  /** The child made its parent wait and its dispatcher has not let it go. */
  ghost predicate Holds(st: Store, c: RunId) { Waited(st, c) && !Released(st, c) }

  function WaitVersion(st: Store, c: RunId): nat
    requires WaitChild(c) in st.journal
  {
    st.journal[WaitChild(c)].version
  }

  ghost predicate HolderOk(st: Store, c: RunId) {
    && (Waited(st, c) ==> IsChild(st, c) && ParentOf(st, c) in st.runs
                          && WaitVersion(st, c) <= st.runs[ParentOf(st, c)].version)
    && (Released(st, c) ==> Waited(st, c) && Terminal(st.runs[c].state))
    && (Holds(st, c) ==>
          var p := st.runs[ParentOf(st, c)];
          && (p.state.WaitingChild? || p.state.Failed? || p.state.Cancelled?)
          && (p.state.WaitingChild? <==> p.version == WaitVersion(st, c)))
  }

  ghost predicate OneHolder(st: Store) {
    forall c, c' :: (IsChild(st, c) && IsChild(st, c') && Holds(st, c) && Holds(st, c')
                     && ParentOf(st, c) == ParentOf(st, c')) ==> c == c'
  }

  ghost predicate HasHolder(st: Store, p: RunId) {
    exists c :: IsChild(st, c) && ParentOf(st, c) == p && Holds(st, c)
  }

  ghost predicate JournalOk(st: Store) {
    && (forall c :: HolderOk(st, c))
    && OneHolder(st)
    && (forall p <- st.runs :: st.runs[p].state.WaitingChild? ==> HasHolder(st, p))
  }

  // ---- the dispatchers ----

  ghost predicate Settling(pc: Pc) { pc.Resuming? || pc.Requeued? }

  /** The dispatcher whose wait the child's parent is in. */
  ghost predicate Bound(pc: Pc) { PastWait(pc) || Settling(pc) }

  ghost predicate CarriesVersion(pc: Pc) { pc.Claimed? || pc.SawParent? || pc.Refused? || PastWait(pc) }

  ghost predicate On(s: State, d: DispatcherId, c: RunId) {
    d in s.pcs && !Over(s.pcs[d]) && s.pcs[d].child == c
  }

  ghost predicate Enters(s: State, d: DispatcherId, c: RunId) {
    d in s.pcs && Entrant(s.pcs[d]) && s.pcs[d].child == c
  }

  /** First claimants: as long as the child never made its parent wait and the parent may run,
      there is one at most, and the child has not been queued again. */
  ghost predicate EntrantsOk(s: State, c: RunId) {
    IsChild(s.st, c) && !Waited(s.st, c) && MayRun(s, ParentOf(s.st, c)) ==>
      && (forall d, e :: Enters(s, d, c) && Enters(s, e, c) ==> d == e)
      && (forall d :: Enters(s, d, c) ==> StillFirst(s.st.runs[c].state))
  }

  ghost predicate StillFirst(state: RunState) { state.Running? || state.Failed? || state.Cancelled? }

  /** A later claimant, after a recovery: the parent still waits for this child, and
      nobody who could let it go is left. */
  ghost predicate StaleOk(s: State, d: DispatcherId, c: RunId) {
    && Holds(s.st, c)
    && c in s.st.runs
    && (forall d' :: On(s, d', c) ==> !Settling(s.pcs[d']))
    && (forall d' :: On(s, d', c) && PastWait(s.pcs[d']) ==> s.pcs[d'].v < s.st.runs[c].version)
  }

  ghost predicate Unfinished(st: Store, c: RunId) {
    Fail(c) !in st.journal && Finish(c) !in st.journal && WaitApproval(c) !in st.journal
  }

  ghost predicate PcOk(s: State, d: DispatcherId) {
    d in s.pcs && !Over(s.pcs[d]) ==>
      var pc := s.pcs[d];
      var c := pc.child;
      var st := s.st;
      && d in s.calls && IsChild(st, c) && st.runs[c].key == Some(s.calls[d].key)
      && (pc.FoundQueued? ==> Claim(c, d) !in st.journal)
      && (!pc.FoundQueued? ==> Claim(c, d) in st.journal)
      && (CarriesVersion(pc) ==>
            && pc.v <= st.runs[c].version
            && (pc.v == st.runs[c].version ==> st.runs[c].state.Running?))
      && (Entrant(pc) && Waited(st, c) ==> StaleOk(s, d, c))
      && (pc.SawParent? && Waited(st, c) ==> !pc.seen.Running?)
      && (Bound(pc) ==> Waited(st, c) && forall d' :: On(s, d', c) && Bound(s.pcs[d']) ==> d' == d)
      && (PastWait(pc) ==> pc.pv == WaitVersion(st, c) && Unfinished(st, c))
      && (pc.HoldsParent? ==> c !in s.starts)
      && (PastWait(pc) && !pc.HoldsParent? ==> c in s.starts)
      && (Settling(pc) ==> Terminal(st.runs[c].state))
      && (pc.Resuming? ==> !Released(st, c) && pc.pv == WaitVersion(st, c))
  }

  ghost predicate StartsOk(s: State) {
    forall c {:trigger s.starts[c]} {:trigger Waited(s.st, c)} ::
      && s.starts[c] <= 1
      && (c in s.starts ==> Waited(s.st, c))
  }

  /** The commands that end a child come after its parent was made to wait for it. */
  ghost predicate EndsOk(st: Store) {
    forall c :: !Unfinished(st, c) ==> Waited(st, c)
  }

  /** A dispatcher's own claim command is used by nobody else and names its child. */
  ghost predicate ClaimsOk(s: State) {
    forall c, d :: Claim(c, d) in s.st.journal ==> d in s.pcs && s.st.journal[Claim(c, d)].run == c
  }

  /** A delegated run that delegates was started. */
  ghost predicate Rooted(s: State) {
    forall c :: IsChild(s.st, c) && IsChild(s.st, ParentOf(s.st, c)) ==> ParentOf(s.st, c) in s.starts
  }

  ghost predicate RestOk(s: State) { StartsOk(s) && ClaimsOk(s) && EndsOk(s.st) && Rooted(s) }

  /** All of the invariant but what it says of first claimants. */
  ghost predicate Core(s: State) {
    && StoreOk(s.st)
    && JournalOk(s.st)
    && RestOk(s)
    && forall d :: PcOk(s, d)
  }

  ghost predicate Inv(s: State) {
    && Core(s)
    && forall c :: EntrantsOk(s, c)
  }

  // ---- store moves ----

  lemma MovedKeepsStoreOk(st: Store, r: RunId, to: RunState, cmd: Command, patch: Option<Object>)
    requires StoreOk(st) && r in st.runs
    ensures StoreOk(Moved(st, r, to, cmd, patch))
    ensures forall c :: IsChild(Moved(st, r, to, cmd, patch), c) <==> IsChild(st, c)
  {
  }

  /** The moves that change who holds whom, and everything else. */
  ghost predicate KeepsHolders(st: Store, r: RunId, to: RunState, cmd: Command) {
    && r in st.runs && Allowed(st.runs[r].state, to) && !to.WaitingChild?
    && (st.runs[r].state.WaitingChild? ==> !to.Queued?)
    && !cmd.WaitChild? && !cmd.ChildDoneQueue?
  }

  ghost predicate MakesWait(st: Store, c: RunId) {
    && IsChild(st, c) && !Waited(st, c)
    && ParentOf(st, c) in st.runs && st.runs[ParentOf(st, c)].state.Running?
  }

  ghost predicate LetsGo(st: Store, c: RunId) {
    && IsChild(st, c) && Holds(st, c) && Terminal(st.runs[c].state)
    && ParentOf(st, c) in st.runs && st.runs[ParentOf(st, c)].state.WaitingChild?
  }

  lemma HolderKept(st: Store, r: RunId, to: RunState, cmd: Command, patch: Option<Object>, c: RunId)
    requires StoreOk(st) && HolderOk(st, c) && KeepsHolders(st, r, to, cmd)
    ensures StoreOk(Moved(st, r, to, cmd, patch)) && HolderOk(Moved(st, r, to, cmd, patch), c)
  {
    MovedKeepsStoreOk(st, r, to, cmd, patch);
  }

  lemma WaitedKept(st: Store, c: RunId, x: RunId)
    requires StoreOk(st) && HolderOk(st, c) && HolderOk(st, x) && MakesWait(st, c)
    ensures var st' := Moved(st, ParentOf(st, c), WaitingChild, WaitChild(c), None);
            StoreOk(st') && HolderOk(st', x)
    ensures Holds(st, x) && IsChild(st, x) ==> ParentOf(st, x) != ParentOf(st, c)
  {
    MovedKeepsStoreOk(st, ParentOf(st, c), WaitingChild, WaitChild(c), None);
  }

  lemma ReleasedKept(st: Store, c: RunId, x: RunId)
    requires StoreOk(st) && OneHolder(st) && HolderOk(st, c) && HolderOk(st, x) && LetsGo(st, c)
    ensures var st' := Moved(st, ParentOf(st, c), Queued, ChildDoneQueue(c), None);
            StoreOk(st') && HolderOk(st', x)
  {
    MovedKeepsStoreOk(st, ParentOf(st, c), Queued, ChildDoneQueue(c), None);
    assert x != c && IsChild(st, x) && Holds(st, x) ==> ParentOf(st, x) != ParentOf(st, c);
  }

  /** Holders survive a move that leaves their own commands alone. */
  lemma HasHolderKept(st: Store, st': Store, p: RunId)
    requires StoreOk(st) && StoreOk(st') && HasHolder(st, p)
    requires forall c :: IsChild(st, c) ==> IsChild(st', c) && st'.runs[c].key == st.runs[c].key
    requires forall c :: IsChild(st, c) && ParentOf(st, c) == p && Holds(st, c) ==> Holds(st', c)
    ensures HasHolder(st', p)
  {
    var c :| IsChild(st, c) && ParentOf(st, c) == p && Holds(st, c);
    assert IsChild(st', c) && ParentOf(st', c) == p && Holds(st', c);
  }

  lemma PlainMoveKeepsJournal(st: Store, r: RunId, to: RunState, cmd: Command, patch: Option<Object>)
    requires StoreOk(st) && JournalOk(st) && KeepsHolders(st, r, to, cmd)
    ensures StoreOk(Moved(st, r, to, cmd, patch)) && JournalOk(Moved(st, r, to, cmd, patch))
  {
    var st' := Moved(st, r, to, cmd, patch);
    MovedKeepsStoreOk(st, r, to, cmd, patch);
    forall c ensures HolderOk(st', c) { HolderKept(st, r, to, cmd, patch, c); }
    assert OneHolder(st') by {
      assert forall c :: Holds(st', c) ==> Holds(st, c);
    }
    forall p | p in st'.runs && st'.runs[p].state.WaitingChild? ensures HasHolder(st', p) {
      HasHolderKept(st, st', p);
    }
  }

  lemma WaitKeepsJournal(st: Store, c: RunId)
    requires StoreOk(st) && JournalOk(st) && MakesWait(st, c)
    ensures var st' := Moved(st, ParentOf(st, c), WaitingChild, WaitChild(c), None);
            StoreOk(st') && JournalOk(st')
  {
    var p := ParentOf(st, c);
    var st' := Moved(st, p, WaitingChild, WaitChild(c), None);
    MovedKeepsStoreOk(st, p, WaitingChild, WaitChild(c), None);
    forall x ensures HolderOk(st', x) && (Holds(st, x) && IsChild(st, x) ==> ParentOf(st, x) != p) {
      WaitedKept(st, c, x);
    }
    assert OneHolder(st') by {
      assert forall x :: x != c && Holds(st', x) ==> Holds(st, x);
    }
    forall q | q in st'.runs && st'.runs[q].state.WaitingChild? ensures HasHolder(st', q) {
      if q == p {
        assert Holds(st, c) || !Released(st, c) by { assert HolderOk(st, c); }
        assert IsChild(st', c) && ParentOf(st', c) == p && Holds(st', c);
      } else {
        HasHolderKept(st, st', q);
      }
    }
  }

  lemma ReleaseKeepsJournal(st: Store, c: RunId)
    requires StoreOk(st) && JournalOk(st) && LetsGo(st, c)
    ensures var st' := Moved(st, ParentOf(st, c), Queued, ChildDoneQueue(c), None);
            StoreOk(st') && JournalOk(st')
  {
    var p := ParentOf(st, c);
    var st' := Moved(st, p, Queued, ChildDoneQueue(c), None);
    MovedKeepsStoreOk(st, p, Queued, ChildDoneQueue(c), None);
    forall x ensures HolderOk(st', x) { ReleasedKept(st, c, x); }
    assert OneHolder(st') by {
      assert forall x :: Holds(st', x) ==> Holds(st, x);
    }
    forall q | q in st'.runs && st'.runs[q].state.WaitingChild? ensures HasHolder(st', q) {
      HasHolderKept(st, st', q);
    }
  }
}
