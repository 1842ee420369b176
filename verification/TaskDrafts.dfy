/** Committing a task draft (application/task_drafts.py, control_plane/task_drafts.py): each
    item becomes one task, however often the commit fails and is tried again, and whatever
    other calls do while it waits. */
module TaskDrafts {
  import opened Wrappers
  import opened Text
  import opened Tenancy
  import opened DraftKeys
  import opened Work
  import opened WorkHandlers

  datatype DraftError =
    | Incomplete | NoSuchDraft | NotOwner | OtherContext | AccessDenied | AlreadyRejected
    | HeldByOther | AlreadyStarted | CannotComplete | AuditFailed | TaskFailed

  datatype Scope = Scope(ns: Namespace, id: string, conversation: string)

  /** Everything other calls may do while this one waits: nothing is known of it but that
      they make permitted writes. Each handler and each operation below promises as much. */
  method OtherCalls(db: Database)
    modifies db
    ensures Reaches(old(db.tables), db.tables)
  {
    NothingWritten(db.tables);
  }

  // ---- the draft store ----

  /** A draft is stored once for a run; a later call for the run finds the stored one. */
  method StoreDraft(db: Database, draft: TaskDraft, newId: string) returns (r: Result<string, DraftError>)
    requires draft.state.Draft? && draft.taskIds == [] && draft.decidedBy == ""
    modifies db
    ensures Reaches(old(db.tables), db.tables)
    ensures r.Ok? ==>
      && r.value in db.tables.drafts && db.tables.drafts[r.value].run == draft.run
      && db.tables.drafts[r.value].ns == draft.ns
    ensures r.Ok? && r.value !in old(db.tables).drafts ==>
      r.value == newId && db.tables == old(db.tables).(drafts := old(db.tables).drafts[r.value := draft])
    ensures r.Err? || r.value in old(db.tables).drafts ==> db.tables == old(db.tables)
    ensures r == Err(Incomplete) <==>
      "" in [draft.ns.installation, draft.ns.tenant, draft.scope, draft.channel, draft.run, draft.requestedBy]
      || draft.items == []
    ensures r.Err? ==> r.error in [Incomplete, NoSuchDraft]
    ensures r == Err(NoSuchDraft) ==>
      && newId in old(db.tables).drafts
      && forall d <- old(db.tables).drafts ::
           old(db.tables).drafts[d].ns != draft.ns || old(db.tables).drafts[d].run != draft.run
  {
    NothingWritten(db.tables);
    if !Complete(draft) { return Err(Incomplete); }
    var before := db.tables.drafts;
    var stored := set d | d in before && SameRun(before[d], draft);
    if newId !in before && stored == {} {
      assert forall d <- before :: SameRun(before[d], draft) ==> d in stored;
      OneWritten(db.tables, PutDraft(newId, draft));
      db.tables := db.tables.(drafts := before[newId := draft]);
      return Ok(newId);
    }
    if stored == {} {
      assert forall d <- before :: SameRun(before[d], draft) ==> d in stored;
      return Err(NoSuchDraft);
    }
    var d :| d in stored;
    return Ok(d);
  }

  method ClaimCommit(db: Database, d: string, actor: string) returns (r: Result<TaskDraft, DraftError>)
    modifies db
    ensures Reaches(old(db.tables), db.tables)
    ensures r.Ok? <==>
      && d in old(db.tables).drafts && old(db.tables).drafts[d].requestedBy == actor
      && var was := old(db.tables).drafts[d];
         !was.state.Rejected? && (was.state.Committing? ==> was.decidedBy == actor)
    ensures r.Ok? ==> r.value == if !old(db.tables).drafts[d].state.Draft? then old(db.tables).drafts[d]
              else old(db.tables).drafts[d].(state := Committing, decidedBy := actor)
    ensures r.Ok? ==> d in db.tables.drafts && r.value == db.tables.drafts[d]
    ensures r.Ok? ==> r.value.state.Committed? || (r.value.state.Committing? && r.value.decidedBy == actor)
    ensures d !in old(db.tables).drafts ==> r == Err(NoSuchDraft)
    ensures d in old(db.tables).drafts && r.Err? ==>
      r.error == if old(db.tables).drafts[d].requestedBy != actor then NotOwner
                 else if old(db.tables).drafts[d].state == Rejected then AlreadyRejected else HeldByOther
    ensures r.Ok? ==> db.tables == if old(db.tables).drafts[d].state.Draft?
              then old(db.tables).(drafts := old(db.tables).drafts[d := r.value]) else old(db.tables)
    ensures r.Err? ==> db.tables == old(db.tables)
  {
    NothingWritten(db.tables);
    if d !in db.tables.drafts { return Err(NoSuchDraft); }
    var current := db.tables.drafts[d];
    if current.requestedBy != actor { return Err(NotOwner); }
    if current.state.Committed? { return Ok(current); }
    if current.state.Rejected? { return Err(AlreadyRejected); }
    if current.state.Committing? && current.decidedBy != actor { return Err(HeldByOther); }
    if current.state.Draft? {
      var claimed := current.(state := Committing, decidedBy := actor);
      OneWritten(db.tables, PutDraft(d, claimed));
      db.tables := db.tables.(drafts := db.tables.drafts[d := claimed]);
    }
    return Ok(db.tables.drafts[d]);
  }

  /** Only the call that finds the draft still being committed records its tasks. */
  method CompleteDraft(db: Database, d: string, actor: string, taskIds: seq<string>)
    returns (r: Result<TaskDraft, DraftError>)
    modifies db
    ensures r == Err(NoSuchDraft) <==> d !in old(db.tables).drafts
    ensures d in old(db.tables).drafts ==>
      var was := old(db.tables).drafts[d];
      var records := was.state.Committing? && was.decidedBy == actor;
      && (r.Ok? <==> records || was.state.Committed?) && (r.Err? ==> r.error == CannotComplete)
      && db.tables == (if records
           then old(db.tables).(drafts := old(db.tables).drafts[d := was.(state := Committed, taskIds := taskIds)])
           else old(db.tables))
    ensures r == Err(NoSuchDraft) ==> db.tables == old(db.tables)
    ensures r.Ok? ==> d in db.tables.drafts && r.value == db.tables.drafts[d] && r.value.state.Committed?
    ensures d in old(db.tables).drafts && ListsTasks(old(db.tables), d, taskIds) ==> Reaches(old(db.tables), db.tables)
  {
    NothingWritten(db.tables);
    if d !in db.tables.drafts { return Err(NoSuchDraft); }
    var current := db.tables.drafts[d];
    if current.state.Committing? && current.decidedBy == actor {
      var committed := current.(state := Committed, taskIds := taskIds);
      if ListsTasks(db.tables, d, taskIds) { OneWritten(db.tables, PutDraft(d, committed)); }
      db.tables := db.tables.(drafts := db.tables.drafts[d := committed]);
    } else if !current.state.Committed? {
      return Err(CannotComplete);
    }
    return Ok(db.tables.drafts[d]);
  }

  /** The list holds the task of each item of the draft. */
  ghost predicate ListsTasks(t: Tables, d: string, taskIds: seq<string>)
    requires d in t.drafts
  {
    |taskIds| == |t.drafts[d].items| && TasksOf(t, d, taskIds)
  }

  method RejectDraft(db: Database, d: string, actor: string) returns (r: Result<TaskDraft, DraftError>)
    modifies db
    ensures Reaches(old(db.tables), db.tables)
    ensures r.Ok? <==>
      && d in old(db.tables).drafts && old(db.tables).drafts[d].requestedBy == actor
      && (old(db.tables).drafts[d].state.Rejected? || old(db.tables).drafts[d].state.Draft?)
    ensures r.Ok? ==>
      && r.value.state.Rejected?
      && r.value == if !old(db.tables).drafts[d].state.Draft? then old(db.tables).drafts[d]
              else old(db.tables).drafts[d].(state := Rejected, decidedBy := actor)
    ensures r.Ok? ==> db.tables == old(db.tables).(drafts := old(db.tables).drafts[d := r.value])
    ensures r.Err? ==> db.tables == old(db.tables)
    ensures d !in old(db.tables).drafts ==> r == Err(NoSuchDraft)
    ensures d in old(db.tables).drafts && r.Err? ==>
      r.error == if old(db.tables).drafts[d].requestedBy != actor then NotOwner else AlreadyStarted
  {
    NothingWritten(db.tables);
    if d !in db.tables.drafts { return Err(NoSuchDraft); }
    var current := db.tables.drafts[d];
    if current.requestedBy != actor { return Err(NotOwner); }
    if current.state.Rejected? {
      assert db.tables.drafts == db.tables.drafts[d := current];
      return Ok(current);
    }
    if !current.state.Draft? { return Err(AlreadyStarted); }
    var rejected := current.(state := Rejected, decidedBy := actor);
    OneWritten(db.tables, PutDraft(d, rejected));
    db.tables := db.tables.(drafts := db.tables.drafts[d := rejected]);
    return Ok(db.tables.drafts[d]);
  }

  // ---- creating the task of one item ----

  /** How the capability call for one item goes: it may fail before the handler runs, or
      after the handler has stored the task, as when it runs out of time. */
  datatype Fate =
    | FailsBefore
    | FailsAfter(access: Access, assigneeIsMember: bool, newId: string)
    | Completes(access: Access, assigneeIsMember: bool, newId: string)

  function ItemContext(d: string, draft: TaskDraft, index: nat): Context {
    Context(draft.requestedBy, draft.channel, draft.scope, "", draft.ns.installation, draft.ns.tenant,
            DraftKey(d, index))
  }

  function ItemArgs(item: Item, assigneeIsMember: bool): TaskArgs {
    TaskArgs(item.content, if assigneeIsMember then item.assignee else "", item.description, "meeting",
             if item.due > 0.0 then item.due else 0.0, 1, "")
  }

  /** A draft being committed, or committed by someone else meanwhile. */
  ghost predicate Underway(t: Tables, d: string, draft: TaskDraft) {
    && d in t.drafts && (t.drafts[d].state.Committing? || t.drafts[d].state.Committed?)
    && t.drafts[d].ns == draft.ns && t.drafts[d].scope == draft.scope && t.drafts[d].items == draft.items
    && t.drafts[d].requestedBy == draft.requestedBy && Complete(draft)
  }

  lemma ItemKeyAllowed(t: Tables, ns: Namespace, d: string, draft: TaskDraft, index: nat, a: TaskArgs, access: Access)
    requires Underway(t, d, draft) && index < |draft.items|
    requires Authorized(ItemContext(d, draft, index), ns, access)
    ensures KeyAllowed(t, NewTask(ns, ItemContext(d, draft, index), a, ""))
  {
    var task := NewTask(ns, ItemContext(d, draft, index), a, "");
    forall e: string, i: nat | Keyed(task, e, i) ensures e == d && i == index {
      DraftKeyInjective(e, i, d, index);
    }
  }

  /** The row of the task of an item, column by column: the content of the item is its title, and what
      is not said of the item is as for every meeting. */
  ghost predicate ItemTells(task: Task, d: string, draft: TaskDraft, index: nat, assigneeIsMember: bool)
    requires index < |draft.items|
  {
    var item := draft.items[index];
    && task.title == Strip(item.content) && task.description == item.description
    && task.kind == "meeting" && task.status == "pending" && task.priority == 1 && task.goal == ""
    && task.assignee == (if assigneeIsMember then item.assignee else "")
    && (if item.due > 0.0 then task.due == item.due else task.due == 0.0)
    && task.creator == draft.requestedBy && task.channel == draft.channel
    && task.scope == draft.scope && task.ns == draft.ns && Keyed(task, d, index)
  }

  /** Whether the handler accepts the call for an item: it has a title, access is granted, whoever it is
      assigned to is the requester or a member, and its task is there or can be added. */
  ghost predicate ItemAccepted(t: Tables, ns: Namespace, d: string, draft: TaskDraft, index: nat, fate: Fate)
    requires index < |draft.items| && !fate.FailsBefore?
  {
    var assignee := if fate.assigneeIsMember then draft.items[index].assignee else "";
    && Strip(draft.items[index].content) != "" && fate.access.granted && draft.ns == ns
    && (assignee in ["", draft.requestedBy] || fate.access.ownerIsMember)
    && TaskFits(t, ns, draft.scope, DraftKey(d, index), fate.newId)
  }

  /** The call for an item succeeds. */
  ghost predicate ItemMade(t: Tables, ns: Namespace, d: string, draft: TaskDraft, index: nat, fate: Fate) {
    index < |draft.items| && fate.Completes? && ItemAccepted(t, ns, d, draft, index, fate)
  }

  /** What one call for an item does to the tables: it adds the task of the item, if the handler is
      reached and accepts it and the task is not there yet, and nothing otherwise. */
  ghost predicate ItemCall(before: Tables, after: Tables, ns: Namespace, d: string, draft: TaskDraft, index: nat,
                           fate: Fate)
  {
    if index < |draft.items| && !fate.FailsBefore? && ItemAccepted(before, ns, d, draft, index, fate)
       && !KeyFound(before, ns, draft.scope, DraftKey(d, index))
    then
      && fate.newId !in before.tasks && fate.newId in after.tasks
      && after == before.(tasks := before.tasks[fate.newId := after.tasks[fate.newId]])
      && ItemTells(after.tasks[fate.newId], d, draft, index, fate.assigneeIsMember)
    else after == before
  }

  /** The tables before and after each call for an item. */
  type Calls = seq<(Tables, Tables)>

  function EndOf(start: Tables, calls: Calls): Tables { if calls == [] then start else calls[|calls| - 1].1 }

  /** The calls for the items of a draft, in their order, other calls in between. */
  ghost predicate ItemCalls(start: Tables, calls: Calls, ns: Namespace, d: string, draft: TaskDraft,
                            fates: nat -> Fate)
  {
    && |calls| <= |draft.items|
    && forall k :: 0 <= k < |calls| ==>
         && Reaches(EndOf(start, calls[..k]), calls[k].0)
         && ItemCall(calls[k].0, calls[k].1, ns, d, draft, k, fates(k))
         && (k < |calls| - 1 ==> ItemMade(calls[k].0, ns, d, draft, k, fates(k)))
  }

  /** All items have been called for, and every call has succeeded. */
  ghost predicate AllMade(calls: Calls, ns: Namespace, d: string, draft: TaskDraft, fates: nat -> Fate) {
    |calls| == |draft.items| && SoFarMade(calls, ns, d, draft, fates)
  }

  ghost predicate SoFarMade(calls: Calls, ns: Namespace, d: string, draft: TaskDraft, fates: nat -> Fate) {
    forall k :: 0 <= k < |calls| ==> ItemMade(calls[k].0, ns, d, draft, k, fates(k))
  }

  lemma OneMoreCall(start: Tables, calls: Calls, before: Tables, after: Tables, ns: Namespace, d: string,
                    draft: TaskDraft, fates: nat -> Fate)
    requires ItemCalls(start, calls, ns, d, draft, fates) && |calls| < |draft.items|
    requires SoFarMade(calls, ns, d, draft, fates)
    requires Reaches(EndOf(start, calls), before) && ItemCall(before, after, ns, d, draft, |calls|, fates(|calls|))
    ensures ItemCalls(start, calls + [(before, after)], ns, d, draft, fates)
    ensures EndOf(start, calls + [(before, after)]) == after
  {
    var more := calls + [(before, after)];
    forall k | 0 <= k < |more|
      ensures Reaches(EndOf(start, more[..k]), more[k].0) && ItemCall(more[k].0, more[k].1, ns, d, draft, k, fates(k))
    {
      assert more[..k] == calls[..k];
      if k == |calls| { assert calls[..k] == calls; }
    }
  }

  /** What a decision does to goals and tasks, step by step; it starts and ends with changes of drafts. */
  ghost predicate CommitCalls(seen: Tables, calls: Calls, last: Tables, ns: Namespace, d: string, draft: TaskDraft,
                              fates: nat -> Fate)
  {
    && ItemCalls(seen, calls, ns, d, draft, fates)
    && last.tasks == EndOf(seen, calls).tasks && last.goals == EndOf(seen, calls).goals
  }

  method CreateItemTask(repos: Repositories, d: string, draft: TaskDraft, index: nat, fate: Fate)
    returns (r: Result<string, DraftError>)
    requires Underway(repos.db.tables, d, draft) && index < |draft.items|
    modifies repos.db
    ensures Reaches(old(repos.db.tables), repos.db.tables)
    ensures r.Ok? ==> r.value in repos.db.tables.tasks && Keyed(repos.db.tables.tasks[r.value], d, index)
    ensures ItemCall(old(repos.db.tables), repos.db.tables, repos.ns, d, draft, index, fate)
    ensures r.Ok? <==> ItemMade(old(repos.db.tables), repos.ns, d, draft, index, fate)
  {
    NothingWritten(repos.db.tables);
    if fate.FailsBefore? { return Err(TaskFailed); }
    var ctx, args := ItemContext(d, draft, index), ItemArgs(draft.items[index], fate.assigneeIsMember);
    if Authorized(ctx, repos.ns, fate.access) {
      ItemKeyAllowed(repos.db.tables, repos.ns, d, draft, index, args, fate.access);
    }
    var created := CreateTask(repos, ctx, args, fate.access, "", fate.newId);
    if created.Ok? && created.value !in old(repos.db.tables).tasks {
      assert ItemTells(repos.db.tables.tasks[created.value], d, draft, index, fate.assigneeIsMember);
    }
    if created.Err? || fate.FailsAfter? { return Err(TaskFailed); }
    return Ok(created.value);
  }

  // ---- deciding ----

  /** The audit log can fail too: after the claim, and after the commit or the rejection. */
  datatype Faults = Faults(items: nat -> Fate, claimAudit: bool, finalAudit: bool)

  /** How a commit ends of a draft that was found as `was`. */
  ghost predicate CommitEnds(was: TaskDraft, ns: Namespace, d: string, actor: string, faults: Faults, calls: Calls,
                             r: Result<TaskDraft, DraftError>)
  {
    if was.requestedBy != actor then r == Err(NotOwner)
    else if was.state == Committed then r == Ok(was)
    else if was.state == Rejected then r == Err(AlreadyRejected)
    else if was.state == Committing && was.decidedBy != actor then r == Err(HeldByOther)
    else if faults.claimAudit then r == Err(AuditFailed) && calls == []
    else if !AllMade(calls, ns, d, was, faults.items) then r == Err(TaskFailed) && calls != []
    else if faults.finalAudit then r == Err(AuditFailed)
    else r.Ok?
  }

  /** How a rejection ends. */
  ghost predicate RejectionEnds(was: TaskDraft, actor: string, finalAudit: bool, r: Result<TaskDraft, DraftError>) {
    if was.requestedBy != actor then r == Err(NotOwner)
    else if was.state in [Committing, Committed] then r == Err(AlreadyStarted)
    else if finalAudit then r == Err(AuditFailed)
    else r.Ok? && (was.state == Rejected ==> r.value == was)
  }

  ghost predicate MayDecide(t: Tables, d: string, actor: string, scope: Scope) {
    d in t.drafts && t.drafts[d].requestedBy == actor && Belongs(t.drafts[d], scope)
  }

  ghost predicate Belongs(draft: TaskDraft, scope: Scope) {
    draft.scope == scope.id && draft.channel == scope.conversation && draft.ns == scope.ns
  }

  /** How a decision ends: the draft as it is at first is compared with actor and conversation; what
      has been decided before stays decided; after the access check the draft is looked at again. */
  ghost predicate DecisionEnds(first: Tables, seen: Tables, ns: Namespace, d: string, actor: string, scope: Scope,
                               approved: bool, granted: bool, faults: Faults, calls: Calls,
                               r: Result<TaskDraft, DraftError>)
  {
    if d !in first.drafts then r == Err(NoSuchDraft)
    else
      var draft := first.drafts[d];
      if draft.requestedBy != actor then r == Err(NotOwner)
      else if !Belongs(draft, scope) then r == Err(OtherContext)
      else if draft.state == if approved then Committed else Rejected then r == Ok(draft)
      else if !granted then r == Err(AccessDenied)
      else if d !in seen.drafts then false
      else if approved then CommitEnds(seen.drafts[d], ns, d, actor, faults, calls, r)
      else RejectionEnds(seen.drafts[d], actor, faults.finalAudit, r)
  }

  /** `seen` is what the tables hold when the access check is over, other calls included. */
  method Decide(repos: Repositories, d: string, actor: string, scope: Scope, approved: bool, granted: bool,
                faults: Faults)
    returns (r: Result<TaskDraft, DraftError>, ghost seen: Tables, ghost start: Tables, ghost calls: Calls)
    requires repos.Valid()
    modifies repos.db
    ensures DecisionEnds(old(repos.db.tables), seen, repos.ns, d, actor, scope, approved, granted, faults, calls, r)
    ensures Reaches(old(repos.db.tables), repos.db.tables)
    ensures Reaches(old(repos.db.tables), seen) && Reaches(seen, repos.db.tables)
    ensures r.Ok? ==> Decided(repos.db.tables, d, actor, approved, r.value)
    ensures r.Err? && !MayDecide(old(repos.db.tables), d, actor, scope) ==> repos.db.tables == old(repos.db.tables)
    ensures start == seen.(drafts := start.drafts)
    ensures if d in seen.drafts
            then CommitCalls(start, calls, repos.db.tables, repos.ns, d, seen.drafts[d], faults.items) else calls == []
    ensures !approved ==> calls == []
    ensures !granted || (r.Err? && !HalfDone(r.error)) ==> repos.db.tables == seen
    ensures !granted && r.Ok? ==> repos.db.tables == old(repos.db.tables)
    ensures !approved && r.Ok? ==> d in seen.drafts && repos.db.tables == seen.(drafts := seen.drafts[d := r.value])
  {
    var db := repos.db;
    seen := db.tables;
    NothingWritten(seen);
    if d !in db.tables.drafts { return Err(NoSuchDraft), seen, seen, []; }
    NoCalls(seen, repos.ns, d, faults.items);
    AlreadyDecided(seen, d);
    hide CommitEnds, RejectionEnds, CommitCalls, Decided, Reaches;
    var draft := db.tables.drafts[d];
    if draft.requestedBy != actor { return Err(NotOwner), seen, seen, []; }
    if draft.scope != scope.id || draft.channel != scope.conversation || draft.ns != scope.ns {
      return Err(OtherContext), seen, seen, [];
    }
    if approved && draft.state.Committed? { return Ok(draft), seen, seen, []; }
    if !approved && draft.state.Rejected? {
      assert db.tables.drafts == db.tables.drafts[d := draft];
      return Ok(draft), seen, seen, [];
    }
    r, seen, start, calls := DecideOpen(repos, d, actor, approved, granted, faults);
  }

  /** From the access check on. */
  method DecideOpen(repos: Repositories, d: string, actor: string, approved: bool, granted: bool, faults: Faults)
    returns (r: Result<TaskDraft, DraftError>, ghost seen: Tables, ghost start: Tables, ghost calls: Calls)
    requires repos.Valid() && d in repos.db.tables.drafts
    modifies repos.db
    ensures d in seen.drafts
    ensures if !granted then r == Err(AccessDenied) && calls == [] && repos.db.tables == seen
            else if approved then CommitEnds(seen.drafts[d], repos.ns, d, actor, faults, calls, r)
            else RejectionEnds(seen.drafts[d], actor, faults.finalAudit, r) && calls == []
    ensures Reaches(old(repos.db.tables), seen) && Reaches(seen, repos.db.tables)
    ensures Reaches(old(repos.db.tables), repos.db.tables)
    ensures r.Ok? ==> Decided(repos.db.tables, d, actor, approved, r.value)
    ensures start == seen.(drafts := start.drafts)
    ensures CommitCalls(start, calls, repos.db.tables, repos.ns, d, seen.drafts[d], faults.items)
    ensures r.Err? && !HalfDone(r.error) ==> repos.db.tables == seen
    ensures !approved && r.Ok? ==> repos.db.tables == seen.(drafts := seen.drafts[d := r.value])
  {
    OtherCalls(repos.db);
    seen := repos.db.tables;
    NothingWritten(seen);
    ReachesKeeps(old(repos.db.tables), seen);
    NoCalls(seen, repos.ns, d, faults.items);
    hide CommitEnds, RejectionEnds, CommitCalls, Decided, Reaches, Consistent;
    if !granted { return Err(AccessDenied), seen, seen, []; }
    r, start, calls := Act(repos, d, actor, approved, faults);
    ReachesOn(old(repos.db.tables), seen, repos.db.tables);
  }

  lemma NoCalls(t: Tables, ns: Namespace, d: string, fates: nat -> Fate)
    requires d in t.drafts
    ensures CommitCalls(t, [], t, ns, d, t.drafts[d], fates)
  {
  }

  /** What was decided before is a decision that went through. */
  lemma AlreadyDecided(t: Tables, d: string)
    requires Consistent(t) && d in t.drafts
    ensures t.drafts[d].state == Committed ==> Decided(t, d, t.drafts[d].requestedBy, true, t.drafts[d])
    ensures t.drafts[d].state == Rejected ==> Decided(t, d, t.drafts[d].requestedBy, false, t.drafts[d])
  {
    if t.drafts[d].state == Committed { assert ListsTasks(t, d, t.drafts[d].taskIds); }
  }

  /** The part after the access check. */
  method Act(repos: Repositories, d: string, actor: string, approved: bool, faults: Faults)
    returns (r: Result<TaskDraft, DraftError>, ghost start: Tables, ghost calls: Calls)
    requires repos.Valid() && d in repos.db.tables.drafts
    modifies repos.db
    ensures if approved then CommitEnds(old(repos.db.tables).drafts[d], repos.ns, d, actor, faults, calls, r)
            else RejectionEnds(old(repos.db.tables).drafts[d], actor, faults.finalAudit, r)
    ensures Reaches(old(repos.db.tables), repos.db.tables)
    ensures r.Ok? ==> Decided(repos.db.tables, d, actor, approved, r.value)
    ensures r.Err? && !HalfDone(r.error) ==> repos.db.tables == old(repos.db.tables)
    ensures !approved && r.Ok? ==> repos.db.tables == Written(old(repos.db.tables), PutDraft(d, r.value))
    ensures start == old(repos.db.tables).(drafts := start.drafts) && (!approved ==> calls == [])
    ensures CommitCalls(start, calls, repos.db.tables, repos.ns, d, old(repos.db.tables).drafts[d], faults.items)
  {
    if approved {
      r, start, calls := Commit(repos, d, actor, faults);
    } else {
      start, calls := repos.db.tables, [];
      r := RejectDraft(repos.db, d, actor);
      if r.Ok? && faults.finalAudit { return Err(AuditFailed), start, calls; }
    }
  }

  /** Errors after which a commit may have left a claim, tasks or even its result. */
  predicate HalfDone(e: DraftError) { e.AuditFailed? || e.TaskFailed? }

  /** A decision that went through, as the caller gets it. */
  ghost predicate Decided(t: Tables, d: string, actor: string, approved: bool, draft: TaskDraft) {
    && d in t.drafts && draft == t.drafts[d] && draft.requestedBy == actor
    && if approved then draft.state.Committed? && |draft.taskIds| == |draft.items| && TasksOf(t, d, draft.taskIds)
       else draft.state.Rejected?
  }

  /** From the claim to the completion. */
  method Commit(repos: Repositories, d: string, actor: string, faults: Faults)
    returns (r: Result<TaskDraft, DraftError>, ghost start: Tables, ghost calls: Calls)
    requires repos.Valid() && d in repos.db.tables.drafts
    modifies repos.db
    ensures CommitEnds(old(repos.db.tables).drafts[d], repos.ns, d, actor, faults, calls, r)
    ensures Reaches(old(repos.db.tables), repos.db.tables)
    ensures r.Ok? ==> Decided(repos.db.tables, d, actor, true, r.value)
    ensures r.Err? && !HalfDone(r.error) ==> repos.db.tables == old(repos.db.tables)
    ensures start == old(repos.db.tables).(drafts := start.drafts)
    ensures CommitCalls(start, calls, repos.db.tables, repos.ns, d, old(repos.db.tables).drafts[d], faults.items)
  {
    ghost var was := repos.db.tables.drafts[d];
    AlreadyDecided(repos.db.tables, d);
    NoCalls(repos.db.tables, repos.ns, d, faults.items);
    r := ClaimCommit(repos.db, d, actor);
    ghost var claimed := repos.db.tables;
    start, calls := claimed, [];
    ReachesKeeps(old(repos.db.tables), claimed);
    NoCalls(claimed, repos.ns, d, faults.items);
    SameCalls(claimed, [], claimed, repos.ns, d, claimed.drafts[d], was, faults.items);
    hide CommitCalls, AllMade, Decided, Reaches, Consistent;
    if r.Err? || r.value.state.Committed? { return; }
    if faults.claimAudit { return Err(AuditFailed), start, calls; }
    r, calls := CommitClaimed(repos, d, actor, r.value, faults);
    SameCalls(claimed, calls, repos.db.tables, repos.ns, d, claimed.drafts[d], was, faults.items);
    ReachesOn(old(repos.db.tables), claimed, repos.db.tables);
  }

  /** From the claim on. */
  method CommitClaimed(repos: Repositories, d: string, actor: string, claimed: TaskDraft, faults: Faults)
    returns (r: Result<TaskDraft, DraftError>, ghost calls: Calls)
    requires repos.Valid() && d in repos.db.tables.drafts && repos.db.tables.drafts[d] == claimed
    requires claimed.state == Committing && claimed.decidedBy == actor && claimed.requestedBy == actor
    modifies repos.db
    ensures if !AllMade(calls, repos.ns, d, claimed, faults.items)
            then r == Err(TaskFailed) && calls != []
            else if faults.finalAudit then r == Err(AuditFailed) else r.Ok?
    ensures r.Ok? ==> Decided(repos.db.tables, d, actor, true, r.value)
    ensures CommitCalls(old(repos.db.tables), calls, repos.db.tables, repos.ns, d, claimed, faults.items)
    ensures Reaches(old(repos.db.tables), repos.db.tables)
  {
    ghost var t1 := repos.db.tables;
    assert Underway(t1, d, claimed) by { assert Complete(t1.drafts[d]); }
    hide ItemCalls, AllMade, Reaches, TasksOf;
    var taskIds, failed;
    taskIds, failed, calls := CommitItems(repos, d, claimed, faults);
    if failed { return Err(TaskFailed), calls; }
    ghost var t2 := repos.db.tables;
    ReachesKeeps(t1, t2);
    r := CompleteDraft(repos.db, d, actor, taskIds);
    ReachesOn(t1, t2, repos.db.tables);
    ReachesKeeps(t2, repos.db.tables);
    if faults.finalAudit { return Err(AuditFailed), calls; }
  }

  lemma SameCalls(start: Tables, calls: Calls, last: Tables, ns: Namespace, d: string, draft: TaskDraft,
                  same: TaskDraft, fates: nat -> Fate)
    requires CommitCalls(start, calls, last, ns, d, draft, fates)
    requires draft.items == same.items && draft.requestedBy == same.requestedBy && draft.channel == same.channel
    requires draft.scope == same.scope && draft.ns == same.ns
    ensures CommitCalls(start, calls, last, ns, d, same, fates)
    ensures AllMade(calls, ns, d, draft, fates) <==> AllMade(calls, ns, d, same, fates)
  {
    SameItems(start, calls, ns, d, draft, same, fates);
  }

  /** What the calls say of a draft depends on its items and on whose it is, not on its state. */
  lemma SameItems(start: Tables, calls: Calls, ns: Namespace, d: string, draft: TaskDraft, same: TaskDraft,
                  fates: nat -> Fate)
    requires ItemCalls(start, calls, ns, d, draft, fates)
    requires draft.items == same.items && draft.requestedBy == same.requestedBy && draft.channel == same.channel
    requires draft.scope == same.scope && draft.ns == same.ns
    ensures ItemCalls(start, calls, ns, d, same, fates)
    ensures AllMade(calls, ns, d, draft, fates) <==> AllMade(calls, ns, d, same, fates)
  {
    forall k, t: Tables | 0 <= k < |calls|
      ensures ItemMade(t, ns, d, draft, k, fates(k)) <==> ItemMade(t, ns, d, same, k, fates(k))
    {
      SameItem(t, t, ns, d, draft, same, k, fates(k));
    }
    forall k | 0 <= k < |calls| ensures ItemCall(calls[k].0, calls[k].1, ns, d, same, k, fates(k)) {
      SameItem(calls[k].0, calls[k].1, ns, d, draft, same, k, fates(k));
    }
  }

  lemma SameItem(before: Tables, after: Tables, ns: Namespace, d: string, draft: TaskDraft, same: TaskDraft, k: nat,
                 fate: Fate)
    requires draft.items == same.items && draft.requestedBy == same.requestedBy && draft.channel == same.channel
    requires draft.scope == same.scope && draft.ns == same.ns
    ensures ItemMade(before, ns, d, draft, k, fate) <==> ItemMade(before, ns, d, same, k, fate)
    ensures ItemCall(before, after, ns, d, draft, k, fate) <==> ItemCall(before, after, ns, d, same, k, fate)
  {
    hide Strip, TaskFits, KeyFound, DraftKey;
  }

  // ---- the loop over the items, during which other calls run ----

  /** The tasks of the items so far are listed, each by its call. */
  ghost predicate Listing(start: Tables, t: Tables, d: string, draft: TaskDraft, ids: seq<string>, calls: Calls,
                          ns: Namespace, fates: nat -> Fate)
  {
    && Consistent(t) && Reaches(start, t) && Underway(t, d, draft) && TasksOf(t, d, ids)
    && ItemCalls(start, calls, ns, d, draft, fates) && t == EndOf(start, calls)
  }

  lemma ListsOneMore(start: Tables, before: Tables, between: Tables, after: Tables, d: string, draft: TaskDraft,
                     ids: seq<string>, calls: Calls, ns: Namespace, fates: nat -> Fate)
    requires Listing(start, before, d, draft, ids, calls, ns, fates) && |calls| < |draft.items|
    requires SoFarMade(calls, ns, d, draft, fates)
    requires Reaches(before, after) && Underway(after, d, draft) && Reaches(before, between)
    requires ItemCall(between, after, ns, d, draft, |calls|, fates(|calls|))
    ensures Listing(start, after, d, draft, ids, calls + [(between, after)], ns, fates)
    ensures SoFarMade(calls + [(between, after)], ns, d, draft, fates)
       <==> ItemMade(between, ns, d, draft, |calls|, fates(|calls|))
  {
    hide Underway, ItemCall, ItemCalls, ItemMade, EndOf, Reaches;
    ReachesOn(start, before, after);
    ReachesKeeps(before, after);
    TasksOfStable(before, after, d, ids);
    OneMoreCall(start, calls, between, after, ns, d, draft, fates);
    var more := calls + [(between, after)];
    assert more[|calls|] == (between, after) && forall k :: 0 <= k < |calls| ==> more[k] == calls[k];
  }

  lemma ListsTask(start: Tables, t: Tables, d: string, draft: TaskDraft, ids: seq<string>, calls: Calls,
                  ns: Namespace, fates: nat -> Fate, id: string)
    requires Listing(start, t, d, draft, ids, calls, ns, fates) && id in t.tasks && Keyed(t.tasks[id], d, |ids|)
    ensures Listing(start, t, d, draft, ids + [id], calls, ns, fates)
  {
    hide ItemCalls, Underway, Reaches, Consistent;
  }

  method CommitItems(repos: Repositories, d: string, claimed: TaskDraft, faults: Faults)
    returns (taskIds: seq<string>, failed: bool, ghost calls: Calls)
    requires repos.Valid() && Underway(repos.db.tables, d, claimed)
    modifies repos.db
    ensures repos.Valid() && Reaches(old(repos.db.tables), repos.db.tables)
    ensures Underway(repos.db.tables, d, claimed)
    ensures !failed ==> |taskIds| == |claimed.items| && TasksOf(repos.db.tables, d, taskIds)
    ensures ItemCalls(old(repos.db.tables), calls, repos.ns, d, claimed, faults.items)
    ensures repos.db.tables == EndOf(old(repos.db.tables), calls)
    ensures !failed <==> AllMade(calls, repos.ns, d, claimed, faults.items)
    ensures failed ==> calls != []
  {
    taskIds, failed, calls := [], false, [];
    NothingWritten(repos.db.tables);
    assert Listing(repos.db.tables, repos.db.tables, d, claimed, [], [], repos.ns, faults.items);
    hide ItemCalls, ItemCall, ItemMade, EndOf, Reaches, Consistent, Underway;
    var index := 0;
    while index < |claimed.items|
      invariant 0 <= index <= |claimed.items| && |taskIds| == |calls| == index
      invariant Listing(old(repos.db.tables), repos.db.tables, d, claimed, taskIds, calls, repos.ns, faults.items)
      invariant SoFarMade(calls, repos.ns, d, claimed, faults.items)
    {
      ghost var before := repos.db.tables;
      var task;
      ghost var between;
      task, between := CommitItem(repos, d, claimed, index, faults.items(index));
      hide Listing, Keyed;
      ListsOneMore(old(repos.db.tables), before, between, repos.db.tables, d, claimed, taskIds, calls, repos.ns,
                   faults.items);
      calls := calls + [(between, repos.db.tables)];
      if task.Err? { return taskIds, true, calls; }
      ListsTask(old(repos.db.tables), repos.db.tables, d, claimed, taskIds, calls, repos.ns, faults.items, task.value);
      taskIds := taskIds + [task.value];
      index := index + 1;
    }
  }

  method CommitItem(repos: Repositories, d: string, claimed: TaskDraft, index: nat, fate: Fate)
    returns (r: Result<string, DraftError>, ghost between: Tables)
    requires repos.Valid() && Underway(repos.db.tables, d, claimed) && index < |claimed.items|
    modifies repos.db
    ensures repos.Valid() && Reaches(old(repos.db.tables), repos.db.tables) && Underway(repos.db.tables, d, claimed)
    ensures r.Ok? ==> r.value in repos.db.tables.tasks && Keyed(repos.db.tables.tasks[r.value], d, index)
    ensures Reaches(old(repos.db.tables), between)
    ensures ItemCall(between, repos.db.tables, repos.ns, d, claimed, index, fate)
    ensures r.Ok? <==> ItemMade(between, repos.ns, d, claimed, index, fate)
  {
    OtherCalls(repos.db);
    between := repos.db.tables;
    ReachesKeeps(old(repos.db.tables), between);
    r := CreateItemTask(repos, d, claimed, index, fate);
    ReachesKeeps(between, repos.db.tables);
    ReachesOn(old(repos.db.tables), between, repos.db.tables);
  }

  // ---- what the tables then say of a draft ----

  ghost predicate OfDraft(task: Task, d: string) {
    exists i: nat :: Keyed(task, d, i)
  }

  ghost function TasksOfDraft(t: Tables, d: string): set<string> {
    set id | id in t.tasks && OfDraft(t.tasks[id], d)
  }

  ghost function ItemOf(task: Task, d: string): nat
    requires OfDraft(task, d)
  {
    var i: nat :| Keyed(task, d, i);
    i
  }

  /** A map that repeats no value and has only values below `n` is no larger than `n`. */
  lemma {:induction false} Pigeonhole(m: map<string, nat>, n: nat)
    requires forall a <- m :: m[a] < n
    requires forall a <- m, b <- m :: m[a] == m[b] ==> a == b
    ensures |m.Keys| <= n
    decreases n
  {
    if a :| a in m && m[a] == n - 1 {
      var rest := m - {a};
      assert m.Keys == rest.Keys + {a};
      Pigeonhole(rest, n - 1);
    } else if n > 0 {
      Pigeonhole(m, n - 1);
    } else {
      assert m.Keys == {};
    }
  }

  lemma OneTaskPerItem(t: Tables, d: string, i: nat, a: string, b: string)
    requires Consistent(t) && a in t.tasks && b in t.tasks
    requires Keyed(t.tasks[a], d, i) && Keyed(t.tasks[b], d, i)
    ensures a == b
  {
    assert KeyAllowed(t, t.tasks[a]) && KeyAllowed(t, t.tasks[b]);
    assert DraftKey(d, i)[0] == 't';
    assert SameTaskKey(t.tasks[a], t.tasks[b]);
  }

  /** Whatever has failed so far, a draft of n items has at most n tasks, and none unless it
      is being committed or committed. */
  lemma DraftTasksAreFew(t: Tables, d: string)
    requires Consistent(t) && d in t.drafts
    ensures |TasksOfDraft(t, d)| <= |t.drafts[d].items|
    ensures t.drafts[d].state.Draft? || t.drafts[d].state.Rejected? ==> TasksOfDraft(t, d) == {}
  {
    var tasks := TasksOfDraft(t, d);
    var items := map id | id in tasks :: ItemOf(t.tasks[id], d);
    forall id | id in items ensures items[id] < |t.drafts[d].items| {
      assert KeyAllowed(t, t.tasks[id]);
    }
    forall a, b | a in items && b in items && items[a] == items[b] ensures a == b {
      OneTaskPerItem(t, d, items[a], a, b);
    }
    Pigeonhole(items, |t.drafts[d].items|);
    assert items.Keys == tasks;
    forall id | id in t.tasks && OfDraft(t.tasks[id], d)
      ensures t.drafts[d].state.Committing? || t.drafts[d].state.Committed?
    {
      assert KeyAllowed(t, t.tasks[id]);
    }
  }

  /** A committed draft lists every task it has, once, in the order of its items. */
  lemma CommittedDraftListsItsTasks(t: Tables, d: string)
    requires Consistent(t) && d in t.drafts && t.drafts[d].state.Committed?
    ensures var ids := t.drafts[d].taskIds;
            && |ids| == |t.drafts[d].items|
            && (forall i, j :: 0 <= i < j < |ids| ==> ids[i] != ids[j])
            && (forall i: nat, id <- t.tasks :: Keyed(t.tasks[id], d, i) ==> i < |ids| && ids[i] == id)
  {
    var ids := t.drafts[d].taskIds;
    assert TasksOf(t, d, ids);
    forall i: nat, j: nat | i < j < |ids| ensures ids[i] != ids[j] {
      assert Keyed(t.tasks[ids[i]], d, i) && Keyed(t.tasks[ids[j]], d, j);
      if ids[i] == ids[j] { DraftKeyInjective(d, i, d, j); }
    }
    forall i: nat, id | id in t.tasks && Keyed(t.tasks[id], d, i) ensures i < |ids| && ids[i] == id {
      assert KeyAllowed(t, t.tasks[id]);
      OneTaskPerItem(t, d, i, id, ids[i]);
    }
  }

  /** Over any run: the tasks made by a failed attempt are the ones the commit records. */
  lemma CommitReusesEarlierTasks(states: seq<Tables>, i: nat, j: nat, d: string, k: nat, id: string)
    requires IsRun(states) && i <= j < |states| && d in states[j].drafts && states[j].drafts[d].state.Committed?
    requires id in states[i].tasks && Keyed(states[i].tasks[id], d, k)
    ensures k < |states[j].drafts[d].taskIds|
    ensures states[j].drafts[d].taskIds[k] == id
  {
    RunKeeps(states, i, j);
    assert TaskEvolves(states[i].tasks[id], states[j].tasks[id]);
    assert Keyed(states[j].tasks[id], d, k);
    CommittedDraftListsItsTasks(states[j], d);
  }
}
