/** The goal and task repositories (repositories.py) and the capability handlers on top of
    them (capabilities/goals.py, capabilities/tasks.py). Each call runs without a pause from
    its first read of the tables to its last write, so it is one step. */
module WorkHandlers {
  import opened Wrappers
  import opened Text
  import opened Tenancy
  import opened Work

  // ---- repositories ----

  class Database {
    var tables: Tables

    constructor ()
      ensures tables == EMPTY
    {
      tables := EMPTY;
    }
  }

  datatype Refusal =
    | EmptyTitle | BadStatus | BadKind | BadNumbers | BadTimes | BadCriteria | Denied
    | NoSuchGoal | NoSuchTask | BadTransition | ScopeRequired | IntegrityError

  predicate TaskAt(t: Tables, id: string, ns: Namespace, scope: string) {
    id in t.tasks && t.tasks[id].ns == ns && t.tasks[id].scope == scope
  }

  predicate GoalAt(t: Tables, id: string, ns: Namespace, scope: string) {
    id in t.goals && t.goals[id].ns == ns && t.goals[id].scope == scope
  }

  /** Creating a task found the one with its key in its scope, or added it. */
  ghost predicate TaskCreated(t: Tables, task: Task, newId: string, id: string, t': Tables) {
    || (TaskAt(t, id, task.ns, task.scope) && SameTaskKey(t.tasks[id], task) && t' == t)
    || (id == newId && newId !in t.tasks && (forall a <- t.tasks :: !SameTaskKey(t.tasks[a], task))
        && t' == t.(tasks := t.tasks[newId := task]))
  }

  ghost predicate GoalCreated(t: Tables, goal: Goal, newId: string, id: string, t': Tables) {
    || (GoalAt(t, id, goal.ns, goal.scope) && SameGoalKey(t.goals[id], goal) && t' == t)
    || (id == newId && newId !in t.goals && (forall a <- t.goals :: !SameGoalKey(t.goals[a], goal))
        && t' == t.(goals := t.goals[newId := goal]))
  }

  /** Why a task cannot be created: no scope, its fresh id is taken, or its key is used by a
      task of another scope, which the look-up does not see but the unique index does. */
  ghost predicate TaskUncreatable(t: Tables, task: Task, newId: string) {
    || task.scope == ""
    || ((forall a <- t.tasks :: SameTaskKey(t.tasks[a], task) ==> t.tasks[a].scope != task.scope)
        && (newId in t.tasks || exists a :: a in t.tasks && SameTaskKey(t.tasks[a], task)))
  }

  ghost predicate GoalUncreatable(t: Tables, goal: Goal, newId: string) {
    || goal.scope == ""
    || ((forall a <- t.goals :: SameGoalKey(t.goals[a], goal) ==> t.goals[a].scope != goal.scope)
        && (newId in t.goals || exists a :: a in t.goals && SameGoalKey(t.goals[a], goal)))
  }

  datatype TaskChanges = TaskChanges(
    title: Option<string>, description: Option<string>, status: Option<string>, assignee: Option<string>,
    due: Option<real>, priority: Option<int>, goal: Option<string>)

  datatype GoalChanges = GoalChanges(
    title: Option<string>, description: Option<string>, status: Option<string>, owner: Option<string>,
    start: Option<real>, due: Option<real>, criteria: Option<seq<Criterion>>)

  function Or<T>(change: Option<T>, now: T): T { if change.Some? then change.value else now }

  function PatchedTask(k: Task, c: TaskChanges): Task {
    k.(title := Or(c.title, k.title), description := Or(c.description, k.description),
       status := Or(c.status, k.status), assignee := Or(c.assignee, k.assignee),
       due := Or(c.due, k.due), priority := Or(c.priority, k.priority), goal := Or(c.goal, k.goal))
  }

  function PatchedGoal(g: Goal, c: GoalChanges): Goal {
    g.(title := Or(c.title, g.title), description := Or(c.description, g.description),
       status := Or(c.status, g.status), owner := Or(c.owner, g.owner),
       start := Or(c.start, g.start), due := Or(c.due, g.due), criteria := Or(c.criteria, g.criteria))
  }

  predicate GoalRefOk(t: Tables, ns: Namespace, scope: string, goal: string) {
    goal == "" || GoalAt(t, goal, ns, scope)
  }

  predicate KeepsLifecycle(g: Goal, g': Goal) {
    GoalStatus(g'.status) && GoalPath(g.status, g'.status) && Ordered(g'.start, g'.due)
  }

  lemma PatchedTaskReaches(t: Tables, id: string, c: TaskChanges, ns: Namespace, scope: string)
    requires TasksLinked(t) && TaskAt(t, id, ns, scope) && (c.goal.Some? ==> GoalRefOk(t, ns, scope, c.goal.value))
    ensures Reaches(t, t.(tasks := t.tasks[id := PatchedTask(t.tasks[id], c)]))
  {
    assert Linked(t, t.tasks[id]);
    OneWritten(t, ChangeTask(id, PatchedTask(t.tasks[id], c)));
  }

  class Repositories {
    const db: Database
    const ns: Namespace

    constructor (db: Database, ns: Namespace)
      ensures this.db == db && this.ns == ns
    {
      this.db, this.ns := db, ns;
    }

    ghost predicate Valid()
      reads db
    {
      Consistent(db.tables)
    }

    method TaskByKey(key: string, scope: string) returns (found: Option<string>)
      ensures found.Some? ==> TaskAt(db.tables, found.value, ns, scope) && db.tables.tasks[found.value].key == key
      ensures found.None? ==>
        forall id <- db.tables.tasks :: TaskAt(db.tables, id, ns, scope) ==> db.tables.tasks[id].key != key
    {
      var rows := set id | id in db.tables.tasks && TaskAt(db.tables, id, ns, scope) && db.tables.tasks[id].key == key;
      if rows == {} {
        assert forall id <- db.tables.tasks ::
            TaskAt(db.tables, id, ns, scope) && db.tables.tasks[id].key == key ==> id in rows;
        return None;
      }
      var id :| id in rows;
      return Some(id);
    }

    method GoalByKey(key: string, scope: string) returns (found: Option<string>)
      ensures found.Some? ==> GoalAt(db.tables, found.value, ns, scope) && db.tables.goals[found.value].key == key
      ensures found.None? ==>
        forall id <- db.tables.goals :: GoalAt(db.tables, id, ns, scope) ==> db.tables.goals[id].key != key
    {
      var rows := set id | id in db.tables.goals && GoalAt(db.tables, id, ns, scope) && db.tables.goals[id].key == key;
      if rows == {} {
        assert forall id <- db.tables.goals ::
            GoalAt(db.tables, id, ns, scope) && db.tables.goals[id].key == key ==> id in rows;
        return None;
      }
      var id :| id in rows;
      return Some(id);
    }

    /** A violated constraint is rolled back and raised. (The look-up that the source then
        repeats finds nothing new within one process.) */
    method CreateTask(task: Task, newId: string) returns (r: Result<string, Refusal>)
      requires task.ns == ns
      modifies db
      ensures r.Ok? ==> TaskCreated(old(db.tables), task, newId, r.value, db.tables)
      ensures r.Err? <==> TaskUncreatable(old(db.tables), task, newId)
      ensures r.Err? ==> r.error == if task.scope == "" then ScopeRequired else IntegrityError
      ensures r.Err? ==> db.tables == old(db.tables)
      ensures Linked(old(db.tables), task) && KeyAllowed(old(db.tables), task) ==> Reaches(old(db.tables), db.tables)
    {
      NothingWritten(db.tables);
      if task.scope == "" { return Err(ScopeRequired); }
      if task.key != "" {
        var existing := TaskByKey(task.key, task.scope);
        if existing.Some? { return Ok(existing.value); }
      }
      var violated :=
        newId in db.tables.tasks || exists a :: a in db.tables.tasks && SameTaskKey(db.tables.tasks[a], task);
      if violated { return Err(IntegrityError); }
      if Linked(db.tables, task) && KeyAllowed(db.tables, task) { OneWritten(db.tables, AddTask(newId, task)); }
      db.tables := db.tables.(tasks := db.tables.tasks[newId := task]);
      return Ok(newId);
    }

    method CreateGoal(goal: Goal, newId: string) returns (r: Result<string, Refusal>)
      requires goal.ns == ns
      modifies db
      ensures r.Ok? ==> GoalCreated(old(db.tables), goal, newId, r.value, db.tables)
      ensures r.Err? <==> GoalUncreatable(old(db.tables), goal, newId)
      ensures r.Err? ==> r.error == if goal.scope == "" then ScopeRequired else IntegrityError
      ensures r.Err? ==> db.tables == old(db.tables)
      ensures GoalStatus(goal.status) && Ordered(goal.start, goal.due) ==> Reaches(old(db.tables), db.tables)
    {
      NothingWritten(db.tables);
      if goal.scope == "" { return Err(ScopeRequired); }
      if goal.key != "" {
        var existing := GoalByKey(goal.key, goal.scope);
        if existing.Some? { return Ok(existing.value); }
      }
      var violated :=
        newId in db.tables.goals || exists a :: a in db.tables.goals && SameGoalKey(db.tables.goals[a], goal);
      if violated { return Err(IntegrityError); }
      if GoalStatus(goal.status) && Ordered(goal.start, goal.due) { OneWritten(db.tables, AddGoal(newId, goal)); }
      db.tables := db.tables.(goals := db.tables.goals[newId := goal]);
      return Ok(newId);
    }

    method UpdateTask(id: string, changes: TaskChanges, scope: string) returns (found: bool)
      modifies db
      ensures found <==> TaskAt(old(db.tables), id, ns, scope)
      ensures db.tables == if !found then old(db.tables) else
                old(db.tables).(tasks := old(db.tables).tasks[id := PatchedTask(old(db.tables).tasks[id], changes)])
      ensures Consistent(old(db.tables))
              && (changes.goal.Some? ==> GoalRefOk(old(db.tables), ns, scope, changes.goal.value))
              ==> Reaches(old(db.tables), db.tables)
    {
      NothingWritten(db.tables);
      if !TaskAt(db.tables, id, ns, scope) { return false; }
      var task := PatchedTask(db.tables.tasks[id], changes);
      if Consistent(db.tables) && (changes.goal.Some? ==> GoalRefOk(db.tables, ns, scope, changes.goal.value)) {
        PatchedTaskReaches(db.tables, id, changes, ns, scope);
      }
      db.tables := db.tables.(tasks := db.tables.tasks[id := task]);
      return true;
    }

    method UpdateGoal(id: string, changes: GoalChanges, scope: string) returns (found: bool)
      modifies db
      ensures found <==> GoalAt(old(db.tables), id, ns, scope)
      ensures db.tables == if !found then old(db.tables) else
                old(db.tables).(goals := old(db.tables).goals[id := PatchedGoal(old(db.tables).goals[id], changes)])
      ensures !found || KeepsLifecycle(old(db.tables).goals[id], PatchedGoal(old(db.tables).goals[id], changes))
              ==> Reaches(old(db.tables), db.tables)
    {
      NothingWritten(db.tables);
      if !GoalAt(db.tables, id, ns, scope) { return false; }
      var goal := PatchedGoal(db.tables.goals[id], changes);
      if KeepsLifecycle(db.tables.goals[id], goal) { OneWritten(db.tables, ChangeGoal(id, goal)); }
      db.tables := db.tables.(goals := db.tables.goals[id := goal]);
      return true;
    }
  }

  // ---- authorization ----

  datatype Context = Context(
    actor: string, conversation: string, scope: string, message: string,
    installation: string, tenant: string, key: string)

  /** `_trusted_context`. */
  predicate Trusted(ctx: Context, ns: Namespace) {
    && ctx.actor != "" && ctx.conversation != "" && ctx.scope != ""
    && (ctx.installation == "" || ctx.installation == ns.installation)
    && (ctx.tenant == "" || ctx.tenant == ns.tenant)
  }

  /** What the access guard and the channel directory answer. */
  datatype Access = Access(granted: bool, ownerIsMember: bool)

  predicate Authorized(ctx: Context, ns: Namespace, access: Access) {
    Trusted(ctx, ns) && access.granted
  }

  predicate OwnerAllowed(ctx: Context, owner: string, access: Access) {
    owner == "" || owner == ctx.actor || access.ownerIsMember
  }

  /** The key of the call, or else the hash of its identity. */
  function WorkKey(ctx: Context, digest: string): string {
    if ctx.key != "" then ctx.key else digest
  }

  // ---- task handlers ----

  predicate TaskKind(s: string) { s == "task" || s == "meeting" }
  predicate TaskStatus(s: string) { s == "pending" || s == "in_progress" || s == "done" || s == "cancelled" }

  datatype TaskArgs = TaskArgs(
    title: string, assignee: string, description: string, kind: string, due: real, priority: int, goal: string)

  function NewTask(ns: Namespace, ctx: Context, a: TaskArgs, digest: string): Task {
    Task(ns, ctx.scope, ctx.conversation, Strip(a.title), a.description, a.kind, "pending", a.assignee,
         ctx.actor, a.due, a.priority, WorkKey(ctx, digest), a.goal)
  }

  /** The row of a new task, column by column. */
  ghost predicate TaskTells(task: Task, ns: Namespace, ctx: Context, a: TaskArgs, digest: string) {
    && task.ns == ns && task.scope == ctx.scope && task.channel == ctx.conversation && task.creator == ctx.actor
    && task.title == Strip(a.title) && task.description == a.description && task.kind == a.kind
    && task.status == "pending" && task.assignee == a.assignee && task.due == a.due
    && task.priority == a.priority && task.goal == a.goal
    && task.key == if ctx.key == "" then digest else ctx.key
  }

  /** Who may write here: somebody in a conversation and a scope, of no other installation or tenant,
      whom the guard lets pass. */
  ghost predicate MayWrite(ctx: Context, ns: Namespace, access: Access) {
    && "" !in [ctx.actor, ctx.conversation, ctx.scope]
    && ctx.installation in ["", ns.installation] && ctx.tenant in ["", ns.tenant]
    && access.granted
  }

  ghost predicate KeyFound(t: Tables, ns: Namespace, scope: string, key: string) {
    key != "" && exists id <- t.tasks :: t.tasks[id].key == key && t.tasks[id].ns == ns && t.tasks[id].scope == scope
  }

  /** A task with the key is found in the scope, or a new row fits: no other row has its id or, in the
      namespace, its key. */
  ghost predicate TaskFits(t: Tables, ns: Namespace, scope: string, key: string, newId: string) {
    || KeyFound(t, ns, scope, key)
    || (newId !in t.tasks && (key != "" ==> forall id <- t.tasks :: t.tasks[id].key != key || t.tasks[id].ns != ns))
  }

  lemma UncreatableUnlessFits(t: Tables, ns: Namespace, ctx: Context, a: TaskArgs, digest: string, newId: string)
    requires ctx.scope != ""
    ensures TaskUncreatable(t, NewTask(ns, ctx, a, digest), newId)
       <==> !TaskFits(t, ns, ctx.scope, if ctx.key == "" then digest else ctx.key, newId)
  {
    hide Strip;
  }

  lemma CreatedTells(t: Tables, t': Tables, ns: Namespace, ctx: Context, a: TaskArgs, digest: string, newId: string,
                     id: string)
    requires TaskCreated(t, NewTask(ns, ctx, a, digest), newId, id, t')
    ensures id !in t.tasks ==>
      && id == newId && id in t'.tasks && TaskTells(t'.tasks[id], ns, ctx, a, digest)
      && t' == t.(tasks := t.tasks[id := t'.tasks[id]])
      && !KeyFound(t, ns, ctx.scope, if ctx.key == "" then digest else ctx.key)
    ensures id in t.tasks ==>
      && t' == t && t.tasks[id].ns == ns && t.tasks[id].scope == ctx.scope
      && t.tasks[id].key == (if ctx.key == "" then digest else ctx.key) != ""
  {
    hide Strip;
  }

  method CreateTask(repos: Repositories, ctx: Context, a: TaskArgs, access: Access, digest: string, newId: string)
    returns (r: Result<string, Refusal>)
    modifies repos.db
    ensures r.Ok? <==>
      && Strip(a.title) != "" && a.kind in ["task", "meeting"] && a.due >= 0.0 && a.priority in [0, 1, 2]
      && MayWrite(ctx, repos.ns, access) && (a.assignee in ["", ctx.actor] || access.ownerIsMember)
      && (a.goal == "" || (a.goal in old(repos.db.tables).goals && old(repos.db.tables).goals[a.goal].ns == repos.ns
                           && old(repos.db.tables).goals[a.goal].scope == ctx.scope))
      && TaskFits(old(repos.db.tables), repos.ns, ctx.scope, if ctx.key == "" then digest else ctx.key, newId)
    ensures r.Ok? && r.value !in old(repos.db.tables).tasks ==>
      && r.value == newId
      && !KeyFound(old(repos.db.tables), repos.ns, ctx.scope, if ctx.key == "" then digest else ctx.key)
      && r.value in repos.db.tables.tasks && TaskTells(repos.db.tables.tasks[r.value], repos.ns, ctx, a, digest)
      && repos.db.tables == old(repos.db.tables).(
           tasks := old(repos.db.tables).tasks[r.value := repos.db.tables.tasks[r.value]])
    ensures r.Ok? && r.value in old(repos.db.tables).tasks ==>
      var found := old(repos.db.tables).tasks[r.value];
      && repos.db.tables == old(repos.db.tables) && found.ns == repos.ns && found.scope == ctx.scope
      && found.key == (if ctx.key == "" then digest else ctx.key) != ""
    ensures r.Ok? ==> TaskCreated(old(repos.db.tables), NewTask(repos.ns, ctx, a, digest), newId, r.value,
                                  repos.db.tables)
    ensures r.Err? ==> repos.db.tables == old(repos.db.tables)
    ensures r.Err? ==>
      r.error == if Strip(a.title) == "" then EmptyTitle
                 else if a.kind !in ["task", "meeting"] then BadKind
                 else if a.due < 0.0 || a.priority !in [0, 1, 2] then BadNumbers
                 else if !MayWrite(ctx, repos.ns, access) || !(a.assignee in ["", ctx.actor] || access.ownerIsMember)
                 then Denied
                 else if a.goal != "" && !GoalAt(old(repos.db.tables), a.goal, repos.ns, ctx.scope) then NoSuchGoal
                 else IntegrityError
    ensures r.Err? || KeyAllowed(old(repos.db.tables), NewTask(repos.ns, ctx, a, digest))
            ==> Reaches(old(repos.db.tables), repos.db.tables)
  {
    NothingWritten(repos.db.tables);
    if ctx.scope != "" { UncreatableUnlessFits(repos.db.tables, repos.ns, ctx, a, digest, newId); }
    hide Strip, Reaches, KeyAllowed, TaskFits, KeyFound, TaskUncreatable, TaskCreated, TaskTells;
    if Strip(a.title) == "" { return Err(EmptyTitle); }
    if !TaskKind(a.kind) { return Err(BadKind); }
    if a.due < 0.0 || a.priority !in {0, 1, 2} { return Err(BadNumbers); }
    if !Authorized(ctx, repos.ns, access) || !OwnerAllowed(ctx, a.assignee, access) { return Err(Denied); }
    if a.goal != "" && !GoalAt(repos.db.tables, a.goal, repos.ns, ctx.scope) { return Err(NoSuchGoal); }
    r := repos.CreateTask(NewTask(repos.ns, ctx, a, digest), newId);
    if r.Ok? { CreatedTells(old(repos.db.tables), repos.db.tables, repos.ns, ctx, a, digest, newId, r.value); }
  }

  /** The row of a changed task, column by column. */
  ghost predicate TaskChanged(was: Task, now: Task, c: TaskChanges) {
    && now.title == (if c.title.Some? then Strip(c.title.value) else was.title)
    && now.description == (if c.description.Some? then c.description.value else was.description)
    && now.status == (if c.status.Some? then c.status.value else was.status)
    && now.assignee == (if c.assignee.Some? then c.assignee.value else was.assignee)
    && now.due == (if c.due.Some? then c.due.value else was.due)
    && now.priority == (if c.priority.Some? then c.priority.value else was.priority)
    && now.goal == (if c.goal.Some? then c.goal.value else was.goal)
    && now.ns == was.ns && now.scope == was.scope && now.channel == was.channel && now.kind == was.kind
    && now.creator == was.creator && now.key == was.key
  }

  lemma PatchedTaskChanged(was: Task, c: TaskChanges)
    ensures TaskChanged(was, PatchedTask(was, c.(title := Stripped(c.title))), c)
  {
  }

  function Stripped(title: Option<string>): Option<string> {
    if title.Some? then Some(Strip(title.value)) else None
  }

  method UpdateTask(repos: Repositories, ctx: Context, id: string, c: TaskChanges, access: Access)
    returns (r: Result<(), Refusal>)
    modifies repos.db
    ensures Consistent(old(repos.db.tables)) ==> Reaches(old(repos.db.tables), repos.db.tables)
    ensures r.Ok? <==>
      && (c.status.Some? ==> c.status.value in ["pending", "in_progress", "done", "cancelled"])
      && (c.title.Some? ==> Strip(c.title.value) != "") && (c.due.Some? ==> c.due.value >= 0.0)
      && (c.priority.Some? ==> c.priority.value in [0, 1, 2])
      && MayWrite(ctx, repos.ns, access)
      && (c.assignee.Some? ==> c.assignee.value in ["", ctx.actor] || access.ownerIsMember)
      && (c.goal.Some? && c.goal.value != "" ==>
            c.goal.value in old(repos.db.tables).goals && old(repos.db.tables).goals[c.goal.value].ns == repos.ns
            && old(repos.db.tables).goals[c.goal.value].scope == ctx.scope)
      && id in old(repos.db.tables).tasks && old(repos.db.tables).tasks[id].ns == repos.ns
      && old(repos.db.tables).tasks[id].scope == ctx.scope
    ensures r.Err? ==> repos.db.tables == old(repos.db.tables)
    ensures r.Ok? ==>
      && id in repos.db.tables.tasks && TaskChanged(old(repos.db.tables).tasks[id], repos.db.tables.tasks[id], c)
      && repos.db.tables == old(repos.db.tables).(tasks := old(repos.db.tables).tasks[id := repos.db.tables.tasks[id]])
    ensures r.Err? ==>
      r.error == if c.status.Some? && c.status.value !in ["pending", "in_progress", "done", "cancelled"] then BadStatus
                 else if c.title.Some? && Strip(c.title.value) == "" then EmptyTitle
                 else if (c.due.Some? && c.due.value < 0.0) || (c.priority.Some? && c.priority.value !in [0, 1, 2])
                 then BadNumbers
                 else if !MayWrite(ctx, repos.ns, access)
                         || (c.assignee.Some? && !(c.assignee.value in ["", ctx.actor] || access.ownerIsMember))
                 then Denied
                 else if c.goal.Some? && c.goal.value != ""
                         && !GoalAt(old(repos.db.tables), c.goal.value, repos.ns, ctx.scope)
                 then NoSuchGoal else NoSuchTask
  {
    hide TaskChanged, PatchedTask, Consistent;
    NothingWritten(repos.db.tables);
    if c.status.Some? && !TaskStatus(c.status.value) { return Err(BadStatus); }
    if c.title.Some? && Strip(c.title.value) == "" { return Err(EmptyTitle); }
    if c.due.Some? && c.due.value < 0.0 { return Err(BadNumbers); }
    if c.priority.Some? && c.priority.value !in {0, 1, 2} { return Err(BadNumbers); }
    if !Authorized(ctx, repos.ns, access) { return Err(Denied); }
    if c.assignee.Some? && !OwnerAllowed(ctx, c.assignee.value, access) { return Err(Denied); }
    if c.goal.Some? && c.goal.value != "" && !GoalAt(repos.db.tables, c.goal.value, repos.ns, ctx.scope) {
      return Err(NoSuchGoal);
    }
    var found := repos.UpdateTask(id, c.(title := Stripped(c.title)), ctx.scope);
    if found { PatchedTaskChanged(old(repos.db.tables).tasks[id], c); }
    if !found { return Err(NoSuchTask); }
    return Ok(());
  }

  /** Whatever else it asks for, a later call with the same key in the same scope gets the task
      of the first one and stores nothing. */
  lemma CreatingAgainFindsTask(t: Tables, task: Task, newId: string, id: string, t': Tables,
                               again: Task, newerId: string, found: string, t'': Tables)
    requires Consistent(t') && TaskCreated(t, task, newId, id, t') && TaskCreated(t', again, newerId, found, t'')
    requires again.key == task.key != "" && again.ns == task.ns && again.scope == task.scope
    ensures found == id && t'' == t'
  {
    assert id in t'.tasks && SameTaskKey(t'.tasks[id], again);
  }

  /** Over any run: once a key is used, at every later time a task with it can be created in the
      tenant if and only if the scope is the same, and then the call finds the first task. */
  lemma KeyBelongsToOneScope(states: seq<Tables>, i: nat, j: nat, id: string, again: Task, newerId: string)
    requires IsRun(states) && i <= j < |states| && id in states[i].tasks
    requires SameTaskKey(states[i].tasks[id], again) && again.scope != ""
    ensures TaskUncreatable(states[j], again, newerId) <==> again.scope != states[i].tasks[id].scope
    ensures forall found, t' :: TaskCreated(states[j], again, newerId, found, t') ==> found == id && t' == states[j]
  {
    RunKeeps(states, i, j);
    assert TaskEvolves(states[i].tasks[id], states[j].tasks[id]);
    assert SameTaskKey(states[j].tasks[id], again);
    forall a | a in states[j].tasks && SameTaskKey(states[j].tasks[a], again) ensures a == id {
      assert SameTaskKey(states[j].tasks[a], states[j].tasks[id]);
    }
  }

  // ---- goal handlers ----

  predicate CriteriaOk(criteria: seq<Criterion>) {
    |criteria| <= 20 && forall i :: 0 <= i < |criteria| ==> Strip(criteria[i].description) != ""
  }

  function Cleaned(criteria: seq<Criterion>): seq<Criterion> {
    seq(|criteria|, i requires 0 <= i < |criteria| =>
      criteria[i].(description := Strip(criteria[i].description), unit := Strip(criteria[i].unit)))
  }

  datatype GoalArgs = GoalArgs(
    title: string, owner: string, description: string, status: string, start: real, due: real,
    criteria: seq<Criterion>)

  function NewGoal(ns: Namespace, ctx: Context, a: GoalArgs, digest: string): Goal {
    Goal(ns, ctx.scope, ctx.conversation, Strip(a.title), a.description, a.status, a.owner, ctx.actor,
         a.start, a.due, Cleaned(a.criteria),
         if ctx.message != "" then ["mattermost_post:" + ctx.message] else [], WorkKey(ctx, digest))
  }

  ghost predicate CriteriaTell(kept: seq<Criterion>, given: seq<Criterion>) {
    && |kept| == |given|
    && forall i :: 0 <= i < |given| ==>
         && kept[i].description == Strip(given[i].description) && kept[i].unit == Strip(given[i].unit)
         && kept[i].current == given[i].current && kept[i].target == given[i].target
  }

  /** The row of a new goal, column by column. */
  ghost predicate GoalTells(goal: Goal, ns: Namespace, ctx: Context, a: GoalArgs, digest: string) {
    && goal.ns == ns && goal.scope == ctx.scope && goal.channel == ctx.conversation && goal.creator == ctx.actor
    && goal.title == Strip(a.title) && goal.description == a.description && goal.status == a.status
    && goal.owner == a.owner && goal.start == a.start && goal.due == a.due && CriteriaTell(goal.criteria, a.criteria)
    && goal.sources == (if ctx.message == "" then [] else ["mattermost_post:" + ctx.message])
    && goal.key == if ctx.key == "" then digest else ctx.key
  }

  ghost predicate GoalKeyFound(t: Tables, ns: Namespace, scope: string, key: string) {
    key != "" && exists id <- t.goals :: t.goals[id].key == key && t.goals[id].ns == ns && t.goals[id].scope == scope
  }

  ghost predicate GoalFits(t: Tables, ns: Namespace, scope: string, key: string, newId: string) {
    || GoalKeyFound(t, ns, scope, key)
    || (newId !in t.goals && (key != "" ==> forall id <- t.goals :: t.goals[id].key != key || t.goals[id].ns != ns))
  }

  /** No time is negative, and a goal is not due before it starts, if both are given. */
  ghost predicate TimesFit(start: real, due: real) {
    start >= 0.0 && due >= 0.0 && (start == 0.0 || due == 0.0 || start <= due)
  }

  ghost predicate CriteriaFit(criteria: seq<Criterion>) {
    |criteria| <= 20 && forall c <- criteria :: Strip(c.description) != ""
  }

  lemma GoalUncreatableUnlessFits(t: Tables, ns: Namespace, ctx: Context, a: GoalArgs, digest: string, newId: string)
    requires ctx.scope != ""
    ensures GoalUncreatable(t, NewGoal(ns, ctx, a, digest), newId)
       <==> !GoalFits(t, ns, ctx.scope, if ctx.key == "" then digest else ctx.key, newId)
  {
    hide Strip, Cleaned;
  }

  lemma CreatedGoalTells(t: Tables, t': Tables, ns: Namespace, ctx: Context, a: GoalArgs, digest: string,
                         newId: string, id: string)
    requires GoalCreated(t, NewGoal(ns, ctx, a, digest), newId, id, t')
    ensures id !in t.goals ==>
      && id == newId && id in t'.goals && GoalTells(t'.goals[id], ns, ctx, a, digest)
      && t' == t.(goals := t.goals[id := t'.goals[id]])
      && !GoalKeyFound(t, ns, ctx.scope, if ctx.key == "" then digest else ctx.key)
    ensures id in t.goals ==>
      && t' == t && t.goals[id].ns == ns && t.goals[id].scope == ctx.scope
      && t.goals[id].key == (if ctx.key == "" then digest else ctx.key) != ""
  {
    hide Strip;
  }

  method CreateGoal(repos: Repositories, ctx: Context, a: GoalArgs, access: Access, digest: string, newId: string)
    returns (r: Result<string, Refusal>)
    modifies repos.db
    ensures Reaches(old(repos.db.tables), repos.db.tables)
    ensures r.Ok? <==>
      && Strip(a.title) != "" && a.status in ["draft", "active"] && TimesFit(a.start, a.due) && CriteriaFit(a.criteria)
      && MayWrite(ctx, repos.ns, access) && (a.owner in ["", ctx.actor] || access.ownerIsMember)
      && GoalFits(old(repos.db.tables), repos.ns, ctx.scope, if ctx.key == "" then digest else ctx.key, newId)
    ensures r.Ok? && r.value !in old(repos.db.tables).goals ==>
      && r.value == newId
      && !GoalKeyFound(old(repos.db.tables), repos.ns, ctx.scope, if ctx.key == "" then digest else ctx.key)
      && r.value in repos.db.tables.goals && GoalTells(repos.db.tables.goals[r.value], repos.ns, ctx, a, digest)
      && repos.db.tables == old(repos.db.tables).(
           goals := old(repos.db.tables).goals[r.value := repos.db.tables.goals[r.value]])
    ensures r.Ok? && r.value in old(repos.db.tables).goals ==>
      var found := old(repos.db.tables).goals[r.value];
      && repos.db.tables == old(repos.db.tables) && found.ns == repos.ns && found.scope == ctx.scope
      && found.key == (if ctx.key == "" then digest else ctx.key) != ""
    ensures r.Ok? ==> GoalCreated(old(repos.db.tables), NewGoal(repos.ns, ctx, a, digest), newId, r.value,
                                  repos.db.tables)
    ensures r.Err? ==> repos.db.tables == old(repos.db.tables)
    ensures r.Err? ==>
      r.error == if Strip(a.title) == "" then EmptyTitle
                 else if a.status !in ["draft", "active"] then BadStatus
                 else if !TimesFit(a.start, a.due) then BadTimes
                 else if !CriteriaFit(a.criteria) then BadCriteria
                 else if !MayWrite(ctx, repos.ns, access) || !(a.owner in ["", ctx.actor] || access.ownerIsMember)
                 then Denied
                 else IntegrityError
  {
    NothingWritten(repos.db.tables);
    if ctx.scope != "" { GoalUncreatableUnlessFits(repos.db.tables, repos.ns, ctx, a, digest, newId); }
    assert NewGoal(repos.ns, ctx, a, digest).ns == repos.ns && NewGoal(repos.ns, ctx, a, digest).scope == ctx.scope;
    assert TimesFit(a.start, a.due) ==> Ordered(a.start, a.due);
    hide Strip, Reaches, GoalFits, GoalKeyFound, GoalUncreatable, GoalCreated, GoalTells, Cleaned;
    if Strip(a.title) == "" { return Err(EmptyTitle); }
    if a.status !in {"draft", "active"} { return Err(BadStatus); }
    if a.start < 0.0 || a.due < 0.0 || (a.start != 0.0 && a.due != 0.0 && a.due < a.start) { return Err(BadTimes); }
    if !CriteriaOk(a.criteria) { return Err(BadCriteria); }
    if !Authorized(ctx, repos.ns, access) || !OwnerAllowed(ctx, a.owner, access) { return Err(Denied); }
    r := repos.CreateGoal(NewGoal(repos.ns, ctx, a, digest), newId);
    if r.Ok? { CreatedGoalTells(old(repos.db.tables), repos.db.tables, repos.ns, ctx, a, digest, newId, r.value); }
  }

  /** A change of a goal that its row allows. */
  predicate GoalChangeFits(g: Goal, c: GoalChanges) {
    && (c.status.Some? ==> GoalStatus(c.status.value))
    && (c.status.Some? ==> c.status.value == g.status || GoalTransition(g.status, c.status.value))
    && var start, due := Or(c.start, g.start), Or(c.due, g.due);
       (start != 0.0 && due != 0.0 ==> start <= due)
  }

  predicate GoalChangesOk(c: GoalChanges) {
    && (c.title.Some? ==> Strip(c.title.value) != "")
    && (c.start.Some? ==> c.start.value >= 0.0)
    && (c.due.Some? ==> c.due.value >= 0.0)
    && (c.criteria.Some? ==> CriteriaOk(c.criteria.value))
  }

  function CleanedChanges(c: GoalChanges): GoalChanges {
    c.(title := Stripped(c.title),
       criteria := if c.criteria.Some? then Some(Cleaned(c.criteria.value)) else None)
  }

  /** A goal that is in order stays so, and moves at most one status on. */
  lemma FittingChangeKeepsGoal(g: Goal, c: GoalChanges)
    requires GoalStatus(g.status) && Ordered(g.start, g.due) && GoalChangesOk(c) && GoalChangeFits(g, c)
    ensures var g' := PatchedGoal(g, CleanedChanges(c));
            && GoalStatus(g'.status) && Ordered(g'.start, g'.due)
            && (g'.status == g.status || GoalTransition(g.status, g'.status))
            && KeepsLifecycle(g, g')
  {
  }

  /** The row of a changed goal, column by column. */
  ghost predicate GoalChanged(was: Goal, now: Goal, c: GoalChanges) {
    && now.title == (if c.title.Some? then Strip(c.title.value) else was.title)
    && now.description == (if c.description.Some? then c.description.value else was.description)
    && now.status == (if c.status.Some? then c.status.value else was.status)
    && now.owner == (if c.owner.Some? then c.owner.value else was.owner)
    && now.start == (if c.start.Some? then c.start.value else was.start)
    && now.due == (if c.due.Some? then c.due.value else was.due)
    && (if c.criteria.Some? then CriteriaTell(now.criteria, c.criteria.value) else now.criteria == was.criteria)
    && now.ns == was.ns && now.scope == was.scope && now.channel == was.channel
    && now.creator == was.creator && now.sources == was.sources && now.key == was.key
  }

  /** The status may stay, or move from draft to active, from active to completed, and from both to
      cancelled; the times must fit what is stored. */
  ghost predicate FitsGoal(g: Goal, c: GoalChanges) {
    && StatusFits(g, c)
    && var start := if c.start.Some? then c.start.value else g.start;
       var due := if c.due.Some? then c.due.value else g.due;
       start == 0.0 || due == 0.0 || start <= due
  }

  ghost predicate StatusFits(g: Goal, c: GoalChanges) {
    c.status.Some? ==>
      (c.status.value == g.status && c.status.value in ["draft", "active", "completed", "cancelled"])
      || [g.status, c.status.value] in
           [["draft", "active"], ["active", "completed"], ["draft", "cancelled"], ["active", "cancelled"]]
  }

  method UpdateGoal(repos: Repositories, ctx: Context, id: string, c: GoalChanges, access: Access)
    returns (r: Result<(), Refusal>)
    modifies repos.db
    ensures Consistent(old(repos.db.tables)) ==> Reaches(old(repos.db.tables), repos.db.tables)
    ensures r.Ok? <==>
      && (c.title.Some? ==> Strip(c.title.value) != "") && (c.criteria.Some? ==> CriteriaFit(c.criteria.value))
      && (c.start.Some? ==> c.start.value >= 0.0) && (c.due.Some? ==> c.due.value >= 0.0)
      && MayWrite(ctx, repos.ns, access)
      && (c.owner.Some? ==> c.owner.value in ["", ctx.actor] || access.ownerIsMember)
      && id in old(repos.db.tables).goals && old(repos.db.tables).goals[id].ns == repos.ns
      && old(repos.db.tables).goals[id].scope == ctx.scope && FitsGoal(old(repos.db.tables).goals[id], c)
    ensures r.Err? ==> repos.db.tables == old(repos.db.tables)
    ensures r.Ok? ==>
      && id in repos.db.tables.goals && GoalChanged(old(repos.db.tables).goals[id], repos.db.tables.goals[id], c)
      && repos.db.tables == old(repos.db.tables).(goals := old(repos.db.tables).goals[id := repos.db.tables.goals[id]])
    ensures r.Err? ==>
      r.error == if c.title.Some? && Strip(c.title.value) == "" then EmptyTitle
                 else if (c.start.Some? && c.start.value < 0.0) || (c.due.Some? && c.due.value < 0.0) then BadTimes
                 else if c.criteria.Some? && !CriteriaFit(c.criteria.value) then BadCriteria
                 else if !MayWrite(ctx, repos.ns, access)
                         || (c.owner.Some? && !(c.owner.value in ["", ctx.actor] || access.ownerIsMember)) then Denied
                 else if !GoalAt(old(repos.db.tables), id, repos.ns, ctx.scope) then NoSuchGoal
                 else if c.status.Some? && c.status.value !in ["draft", "active", "completed", "cancelled"]
                 then BadStatus
                 else if !StatusFits(old(repos.db.tables).goals[id], c) then BadTransition
                 else BadTimes
  {
    hide GoalChanged, FitsGoal, GoalChangeFits, PatchedGoal, CleanedChanges, KeepsLifecycle, Ordered;
    NothingWritten(repos.db.tables);
    if c.title.Some? && Strip(c.title.value) == "" { return Err(EmptyTitle); }
    if (c.start.Some? && c.start.value < 0.0) || (c.due.Some? && c.due.value < 0.0) { return Err(BadTimes); }
    if c.criteria.Some? && !CriteriaOk(c.criteria.value) { return Err(BadCriteria); }
    if !Authorized(ctx, repos.ns, access) { return Err(Denied); }
    if c.owner.Some? && !OwnerAllowed(ctx, c.owner.value, access) { return Err(Denied); }
    if !GoalAt(repos.db.tables, id, repos.ns, ctx.scope) { return Err(NoSuchGoal); }
    var existing := repos.db.tables.goals[id];
    PatchedGoalChanged(existing, c);
    var misfit := Misfit(existing, c);
    if misfit.Some? { return Err(misfit.value); }
    if Consistent(repos.db.tables) { FittingChangeKeepsGoal(existing, c); }
    var _ := repos.UpdateGoal(id, CleanedChanges(c), ctx.scope);
    return Ok(());
  }

  lemma PatchedGoalChanged(was: Goal, c: GoalChanges)
    ensures GoalChanged(was, PatchedGoal(was, CleanedChanges(c)), c)
    ensures FitsGoal(was, c) <==> GoalChangeFits(was, c)
  {
  }

  /** The checks of a change against the stored goal. */
  method Misfit(existing: Goal, c: GoalChanges) returns (misfit: Option<Refusal>)
    ensures misfit.None? <==> GoalChangeFits(existing, c)
    ensures misfit.Some? ==>
      misfit.value == if c.status.Some? && c.status.value !in ["draft", "active", "completed", "cancelled"]
                      then BadStatus
                      else if !StatusFits(existing, c) then BadTransition else BadTimes
  {
    if c.status.Some? {
      if !GoalStatus(c.status.value) { return Some(BadStatus); }
      if c.status.value != existing.status && !GoalTransition(existing.status, c.status.value) {
        return Some(BadTransition);
      }
    }
    var nextStart, nextDue := Or(c.start, existing.start), Or(c.due, existing.due);
    if nextStart != 0.0 && nextDue != 0.0 && nextDue < nextStart { return Some(BadTimes); }
    return None;
  }

  // ---- overview ----

  /** The places of the tasks with a status. */
  ghost function PlacesOf(tasks: seq<Task>, status: string): set<nat> {
    set i: nat | i < |tasks| && tasks[i].status == status
  }

  lemma OneMoreTask(tasks: seq<Task>, task: Task, status: string)
    ensures |PlacesOf(tasks + [task], status)| == |PlacesOf(tasks, status)| + if task.status == status then 1 else 0
  {
    var places := PlacesOf(tasks, status);
    assert PlacesOf(tasks + [task], status) == if task.status == status then places + {|tasks|} else places;
  }

  /** How often each status occurs. */
  ghost predicate Counts(counts: map<string, nat>, tasks: seq<Task>) {
    forall s: string ::
      (if s in counts then counts[s] else 0) == |PlacesOf(tasks, s)| && (s in counts ==> counts[s] > 0)
  }

  method StatusCounts(tasks: seq<Task>) returns (counts: map<string, nat>)
    ensures Counts(counts, tasks)
  {
    counts := map[];
    var i := 0;
    while i < |tasks|
      invariant 0 <= i <= |tasks|
      invariant Counts(counts, tasks[..i])
    {
      var status := tasks[i].status;
      assert tasks[..i + 1] == tasks[..i] + [tasks[i]];
      forall s: string
        ensures |PlacesOf(tasks[..i + 1], s)| == |PlacesOf(tasks[..i], s)| + if tasks[i].status == s then 1 else 0
      {
        OneMoreTask(tasks[..i], tasks[i], s);
      }
      hide PlacesOf;
      counts := counts[status := (if status in counts then counts[status] else 0) + 1];
      i := i + 1;
    }
    assert tasks[..i] == tasks;
  }

  /** `get_goal_overview`, for the tasks the repository lists (at most 50 of them). */
  method GoalOverview(tasks: seq<Task>) returns (counts: map<string, nat>, completed: nat, ratio: real)
    ensures Counts(counts, tasks)
    ensures completed == |PlacesOf(tasks, "done")| <= |tasks|
    ensures 0.0 <= ratio <= 1.0 && ratio * |tasks| as real == completed as real && (tasks == [] ==> ratio == 0.0)
    ensures ratio == 1.0 <==> tasks != [] && forall i :: 0 <= i < |tasks| ==> tasks[i].status == "done"
  {
    counts := StatusCounts(tasks);
    completed := if "done" in counts then counts["done"] else 0;
    CountAtMost(tasks, "done");
    ratio := if tasks == [] then 0.0 else completed as real / |tasks| as real;
    if tasks != [] { RatioOf(completed, |tasks|); }
    hide PlacesOf;
  }

  lemma RatioOf(part: nat, whole: nat)
    requires part <= whole && whole > 0
    ensures var ratio := part as real / whole as real;
            0.0 <= ratio <= 1.0 && ratio * whole as real == part as real && (ratio == 1.0 <==> part == whole)
  {
  }

  lemma {:induction false} CountAtMost(tasks: seq<Task>, status: string)
    ensures |PlacesOf(tasks, status)| <= |tasks|
    ensures |PlacesOf(tasks, status)| == |tasks| <==> forall i :: 0 <= i < |tasks| ==> tasks[i].status == status
    decreases |tasks|
  {
    if tasks == [] {
      assert PlacesOf(tasks, status) == {};
    } else {
      var init, last := tasks[..|tasks| - 1], tasks[|tasks| - 1];
      CountAtMost(init, status);
      OneMoreTask(init, last, status);
      hide PlacesOf;
      assert tasks == init + [last];
      assert forall i :: 0 <= i < |tasks| ==> tasks[i] == if i < |init| then init[i] else last;
    }
  }
}
