/** Goals and tasks: the rows, what every operation keeps, and how rows may change. */
module Work {
  import opened Wrappers
  import opened Tenancy
  import opened DraftKeys

  datatype Criterion = Criterion(description: string, current: Option<real>, target: Option<real>, unit: string)

  datatype Goal = Goal(
    ns: Namespace, scope: string, channel: string, title: string, description: string,
    status: string, owner: string, creator: string, start: real, due: real,
    criteria: seq<Criterion>, sources: seq<string>, key: string)

  datatype Task = Task(
    ns: Namespace, scope: string, channel: string, title: string, description: string,
    kind: string, status: string, assignee: string, creator: string, due: real,
    priority: int, key: string, goal: string)

  datatype DraftState = Draft | Committing | Committed | Rejected

  /** A confirmed action item: the resolved assignee and due time are empty and zero if there
      is none. */
  datatype Item = Item(content: string, description: string, assignee: string, due: real)

  datatype TaskDraft = TaskDraft(
    ns: Namespace, scope: string, channel: string, run: string, requestedBy: string,
    items: seq<Item>, state: DraftState, decidedBy: string, taskIds: seq<string>)

  datatype Tables = Tables(goals: map<string, Goal>, tasks: map<string, Task>, drafts: map<string, TaskDraft>)

  const EMPTY := Tables(map[], map[], map[])

  // ---- goals ----

  predicate GoalStatus(s: string) { s == "draft" || s == "active" || s == "completed" || s == "cancelled" }

  /** `_GOAL_TRANSITIONS`. */
  predicate GoalTransition(from: string, to: string) {
    || (from == "draft" && (to == "active" || to == "cancelled"))
    || (from == "active" && (to == "completed" || to == "cancelled"))
  }

  predicate Ordered(start: real, due: real) {
    start >= 0.0 && due >= 0.0 && (start != 0.0 && due != 0.0 ==> start <= due)
  }

  ghost predicate GoalsOk(t: Tables) {
    forall id <- t.goals :: GoalStatus(t.goals[id].status) && Ordered(t.goals[id].start, t.goals[id].due)
  }

  // ---- keys ----

  predicate SameTaskKey(a: Task, b: Task) { a.key != "" && a.key == b.key && a.ns == b.ns }

  predicate SameGoalKey(a: Goal, b: Goal) { a.key != "" && a.key == b.key && a.ns == b.ns }

  /** The unique indexes on namespace and non-empty execution key. */
  ghost predicate KeysUnique(t: Tables) {
    && (forall a <- t.tasks, b <- t.tasks :: SameTaskKey(t.tasks[a], t.tasks[b]) ==> a == b)
    && (forall a <- t.goals, b <- t.goals :: SameGoalKey(t.goals[a], t.goals[b]) ==> a == b)
  }

  // ---- links ----

  ghost predicate Linked(t: Tables, task: Task) {
    task.goal == "" || (task.goal in t.goals && t.goals[task.goal].ns == task.ns
                        && t.goals[task.goal].scope == task.scope)
  }

  ghost predicate TasksLinked(t: Tables) {
    forall id <- t.tasks :: Linked(t, t.tasks[id])
  }

  // ---- tasks of drafts ----

  predicate Keyed(task: Task, draft: string, i: nat) { task.key == DraftKey(draft, i) }

  /** A key of a draft is used only for its items, in its scope, once it is being committed. */
  ghost predicate KeyAllowed(t: Tables, task: Task) {
    forall d: string, i: nat :: Keyed(task, d, i) ==>
      && d in t.drafts && i < |t.drafts[d].items|
      && (t.drafts[d].state.Committing? || t.drafts[d].state.Committed?)
      && task.ns == t.drafts[d].ns && task.scope == t.drafts[d].scope
  }

  ghost predicate DraftTasksOk(t: Tables) {
    forall id <- t.tasks :: KeyAllowed(t, t.tasks[id])
  }

  /** The first tasks listed are those of the first items, in order. */
  ghost predicate TasksOf(t: Tables, d: string, ids: seq<string>) {
    forall i: nat :: i < |ids| ==> ids[i] in t.tasks && Keyed(t.tasks[ids[i]], d, i)
  }

  /** A committed draft lists the task of each of its items. */
  ghost predicate CommittedOk(t: Tables) {
    forall d <- t.drafts :: t.drafts[d].state.Committed? ==>
      |t.drafts[d].taskIds| == |t.drafts[d].items| && TasksOf(t, d, t.drafts[d].taskIds)
  }

  predicate Complete(d: TaskDraft) {
    && d.ns.installation != "" && d.ns.tenant != "" && d.scope != "" && d.channel != ""
    && d.run != "" && d.requestedBy != "" && d.items != []
  }

  ghost predicate DraftsComplete(t: Tables) {
    && (forall d <- t.drafts :: Complete(t.drafts[d]))
    && (forall d <- t.drafts, e <- t.drafts :: SameRun(t.drafts[d], t.drafts[e]) ==> d == e)
  }

  /** A run has at most one draft. */
  predicate SameRun(a: TaskDraft, b: TaskDraft) { a.ns == b.ns && a.run == b.run }

  ghost predicate Consistent(t: Tables) {
    && GoalsOk(t)
    && KeysUnique(t)
    && TasksLinked(t)
    && DraftTasksOk(t)
    && CommittedOk(t)
    && DraftsComplete(t)
  }

  // ---- how rows may change ----

  /** Any number of permitted status changes. */
  predicate GoalPath(from: string, to: string) {
    to == from || GoalTransition(from, to) || (from == "draft" && to == "completed")
  }

  predicate GoalEvolves(g: Goal, g': Goal) {
    && g'.ns == g.ns && g'.scope == g.scope && g'.key == g.key && g'.creator == g.creator
    && GoalPath(g.status, g'.status)
  }

  predicate TaskEvolves(k: Task, k': Task) {
    k'.ns == k.ns && k'.scope == k.scope && k'.key == k.key && k'.creator == k.creator && k'.kind == k.kind
  }

  predicate DraftEvolves(d: TaskDraft, d': TaskDraft) {
    && d'.ns == d.ns && d'.scope == d.scope && d'.channel == d.channel
    && d'.run == d.run && d'.requestedBy == d.requestedBy && d'.items == d.items
    && match d.state
       case Draft => true
       case Committing => (d'.state.Committing? || d'.state.Committed?) && d'.decidedBy == d.decidedBy
       case Committed => d' == d
       case Rejected => d' == d
  }

  ghost predicate Evolves(t: Tables, t': Tables) {
    && (forall id <- t.goals :: id in t'.goals && GoalEvolves(t.goals[id], t'.goals[id]))
    && (forall id <- t.tasks :: id in t'.tasks && TaskEvolves(t.tasks[id], t'.tasks[id]))
    && (forall d <- t.drafts :: d in t'.drafts && DraftEvolves(t.drafts[d], t'.drafts[d]))
  }

  lemma EvolvesTransitive(t: Tables, u: Tables, v: Tables)
    requires Evolves(t, u) && Evolves(u, v)
    ensures Evolves(t, v)
  {
    forall id | id in t.goals ensures id in v.goals && GoalEvolves(t.goals[id], v.goals[id]) {
      assert GoalEvolves(t.goals[id], u.goals[id]) && GoalEvolves(u.goals[id], v.goals[id]);
    }
    forall id | id in t.tasks ensures id in v.tasks && TaskEvolves(t.tasks[id], v.tasks[id]) {
      assert TaskEvolves(t.tasks[id], u.tasks[id]) && TaskEvolves(u.tasks[id], v.tasks[id]);
    }
    forall d | d in t.drafts ensures d in v.drafts && DraftEvolves(t.drafts[d], v.drafts[d]) {
      assert DraftEvolves(t.drafts[d], u.drafts[d]) && DraftEvolves(u.drafts[d], v.drafts[d]);
    }
  }

  // ---- what survives any change ----

  lemma KeyAllowedStable(t: Tables, t': Tables, task: Task, task': Task)
    requires Evolves(t, t') && KeyAllowed(t, task) && TaskEvolves(task, task')
    ensures KeyAllowed(t', task')
  {
    forall d: string, i: nat | Keyed(task', d, i)
      ensures d in t'.drafts && i < |t'.drafts[d].items|
      ensures t'.drafts[d].state.Committing? || t'.drafts[d].state.Committed?
      ensures task'.ns == t'.drafts[d].ns && task'.scope == t'.drafts[d].scope
    {
      assert Keyed(task, d, i);
      assert DraftEvolves(t.drafts[d], t'.drafts[d]);
    }
  }

  /** Tasks listed for a draft stay its tasks. */
  lemma TasksOfStable(t: Tables, t': Tables, d: string, ids: seq<string>)
    requires Evolves(t, t') && TasksOf(t, d, ids)
    ensures TasksOf(t', d, ids)
  {
    forall i: nat | i < |ids| ensures ids[i] in t'.tasks && Keyed(t'.tasks[ids[i]], d, i) {
      assert Keyed(t.tasks[ids[i]], d, i);
      assert TaskEvolves(t.tasks[ids[i]], t'.tasks[ids[i]]);
    }
  }

  /** Tasks that are kept or replaced by a later version of themselves stay in order. */
  lemma TasksStable(t: Tables, t': Tables)
    requires Evolves(t, t') && TasksLinked(t) && DraftTasksOk(t)
    requires forall id <- t'.tasks ::
      id in t.tasks && (t'.tasks[id].goal == t.tasks[id].goal || Linked(t', t'.tasks[id]))
    ensures TasksLinked(t') && DraftTasksOk(t')
  {
    forall id | id in t'.tasks ensures Linked(t', t'.tasks[id]) && KeyAllowed(t', t'.tasks[id]) {
      KeyAllowedStable(t, t', t.tasks[id], t'.tasks[id]);
    }
  }

  // ---- what writing one row keeps ----

  lemma TaskWriteEvolves(t: Tables, id: string, task: Task)
    requires id in t.tasks ==> TaskEvolves(t.tasks[id], task)
    ensures Evolves(t, t.(tasks := t.tasks[id := task]))
  {
  }

  lemma NewTaskKeeps(t: Tables, id: string, task: Task)
    requires Consistent(t) && id !in t.tasks && Linked(t, task) && KeyAllowed(t, task)
    requires forall a <- t.tasks :: !SameTaskKey(t.tasks[a], task)
    ensures Consistent(t.(tasks := t.tasks[id := task])) && Evolves(t, t.(tasks := t.tasks[id := task]))
  {
    var t' := t.(tasks := t.tasks[id := task]);
    TaskWriteEvolves(t, id, task);
    assert TasksLinked(t') && DraftTasksOk(t') by { NewTaskPlaced(t, id, task); }
    assert GoalsOk(t') && DraftsComplete(t') by { assert t'.goals == t.goals && t'.drafts == t.drafts; }
  }

  lemma NewTaskPlaced(t: Tables, id: string, task: Task)
    requires TasksLinked(t) && DraftTasksOk(t) && Linked(t, task) && KeyAllowed(t, task)
    requires Evolves(t, t.(tasks := t.tasks[id := task]))
    ensures TasksLinked(t.(tasks := t.tasks[id := task])) && DraftTasksOk(t.(tasks := t.tasks[id := task]))
  {
    var t' := t.(tasks := t.tasks[id := task]);
    forall k | k in t'.tasks ensures Linked(t', t'.tasks[k]) && KeyAllowed(t', t'.tasks[k]) {
      var was := if k == id then task else t.tasks[k];
      KeyAllowedStable(t, t', was, t'.tasks[k]);
    }
  }

  lemma ChangedTaskKeeps(t: Tables, id: string, task: Task)
    requires Consistent(t) && id in t.tasks && TaskEvolves(t.tasks[id], task) && Linked(t, task)
    ensures Consistent(t.(tasks := t.tasks[id := task])) && Evolves(t, t.(tasks := t.tasks[id := task]))
  {
    var t' := t.(tasks := t.tasks[id := task]);
    TaskWriteEvolves(t, id, task);
    assert KeysUnique(t') by {
      forall a | a in t.tasks && a != id ensures !SameTaskKey(t.tasks[a], task) {
        assert !SameTaskKey(t.tasks[a], t.tasks[id]);
      }
    }
    assert TasksLinked(t') && DraftTasksOk(t') by { TasksStable(t, t'); }
    assert GoalsOk(t') && DraftsComplete(t') by { assert t'.goals == t.goals && t'.drafts == t.drafts; }
  }

  lemma ChangedGoalKeeps(t: Tables, id: string, goal: Goal)
    requires Consistent(t) && id in t.goals && GoalEvolves(t.goals[id], goal)
    requires GoalStatus(goal.status) && Ordered(goal.start, goal.due)
    ensures Consistent(t.(goals := t.goals[id := goal])) && Evolves(t, t.(goals := t.goals[id := goal]))
  {
    forall a | a in t.goals && a != id ensures !SameGoalKey(t.goals[a], goal) {
      assert !SameGoalKey(t.goals[a], t.goals[id]);
    }
    GoalWriteKeeps(t, id, goal);
  }

  lemma GoalWriteEvolves(t: Tables, id: string, goal: Goal)
    requires id in t.goals ==> GoalEvolves(t.goals[id], goal)
    ensures Evolves(t, t.(goals := t.goals[id := goal]))
  {
  }

  lemma GoalWriteKeeps(t: Tables, id: string, goal: Goal)
    requires Consistent(t) && GoalStatus(goal.status) && Ordered(goal.start, goal.due)
    requires id in t.goals ==> GoalEvolves(t.goals[id], goal)
    requires forall a <- t.goals :: a != id ==> !SameGoalKey(t.goals[a], goal)
    ensures Consistent(t.(goals := t.goals[id := goal])) && Evolves(t, t.(goals := t.goals[id := goal]))
  {
    var t' := t.(goals := t.goals[id := goal]);
    GoalWriteEvolves(t, id, goal);
    assert TasksLinked(t') && DraftTasksOk(t') by { TasksStable(t, t'); }
    assert DraftsComplete(t') by { assert t'.drafts == t.drafts; }
  }

  lemma RunsKept(t: Tables, d: string, draft: TaskDraft)
    requires DraftsComplete(t)
    requires d in t.drafts ==> DraftEvolves(t.drafts[d], draft)
    requires d !in t.drafts ==> Complete(draft) && forall e <- t.drafts :: !SameRun(t.drafts[e], draft)
    ensures DraftsComplete(t.(drafts := t.drafts[d := draft]))
  {
    var t' := t.(drafts := t.drafts[d := draft]);
    forall e | e in t.drafts && e != d ensures !SameRun(t.drafts[e], draft) && !SameRun(draft, t.drafts[e]) {
      if d in t.drafts { assert !SameRun(t.drafts[e], t.drafts[d]); }
    }
    forall a, b | a in t'.drafts && b in t'.drafts && SameRun(t'.drafts[a], t'.drafts[b]) ensures a == b {
      if a != d && b != d { assert SameRun(t.drafts[a], t.drafts[b]); }
    }
  }

  /** Changing a draft: its tasks stay allowed, and if it is committed it lists them. */
  lemma DraftWriteKeeps(t: Tables, d: string, draft: TaskDraft)
    requires Consistent(t) && DraftMayBePut(t, d, draft)
    ensures Consistent(t.(drafts := t.drafts[d := draft])) && Evolves(t, t.(drafts := t.drafts[d := draft]))
  {
    var t' := t.(drafts := t.drafts[d := draft]);
    DraftWriteEvolves(t, d, draft);
    TasksStable(t, t');
    RunsKept(t, d, draft);
    assert GoalsOk(t') && KeysUnique(t') by { assert t'.goals == t.goals && t'.tasks == t.tasks; }
  }

  lemma DraftWriteEvolves(t: Tables, d: string, draft: TaskDraft)
    requires d in t.drafts ==> DraftEvolves(t.drafts[d], draft)
    ensures Evolves(t, t.(drafts := t.drafts[d := draft]))
  {
  }

  // ---- the writes that handlers make ----

  /** One write of one row. */
  datatype Write =
    | AddTask(id: string, task: Task)
    | ChangeTask(id: string, task: Task)
    | AddGoal(id: string, goal: Goal)
    | ChangeGoal(id: string, goal: Goal)
    | PutDraft(id: string, draft: TaskDraft)

  /** What the checks before a write, and the unique indexes, have made sure of. */
  ghost predicate Permitted(t: Tables, w: Write) {
    match w
    case AddTask(id, task) =>
      id !in t.tasks && Linked(t, task) && KeyAllowed(t, task) && forall a <- t.tasks :: !SameTaskKey(t.tasks[a], task)
    case ChangeTask(id, task) =>
      id in t.tasks && TaskEvolves(t.tasks[id], task) && Linked(t, task)
    case AddGoal(id, goal) =>
      && id !in t.goals && GoalStatus(goal.status) && Ordered(goal.start, goal.due)
      && forall a <- t.goals :: !SameGoalKey(t.goals[a], goal)
    case ChangeGoal(id, goal) =>
      id in t.goals && GoalEvolves(t.goals[id], goal) && GoalStatus(goal.status) && Ordered(goal.start, goal.due)
    case PutDraft(d, draft) => DraftMayBePut(t, d, draft)
  }

  ghost predicate DraftMayBePut(t: Tables, d: string, draft: TaskDraft) {
    && (d in t.drafts ==> DraftEvolves(t.drafts[d], draft))
    && (d !in t.drafts ==> Complete(draft) && forall e <- t.drafts :: !SameRun(t.drafts[e], draft))
    && (draft.state.Committed? ==> |draft.taskIds| == |draft.items| && TasksOf(t, d, draft.taskIds))
  }

  function Written(t: Tables, w: Write): Tables {
    match w
    case AddTask(id, task) => t.(tasks := t.tasks[id := task])
    case ChangeTask(id, task) => t.(tasks := t.tasks[id := task])
    case AddGoal(id, goal) => t.(goals := t.goals[id := goal])
    case ChangeGoal(id, goal) => t.(goals := t.goals[id := goal])
    case PutDraft(d, draft) => t.(drafts := t.drafts[d := draft])
  }

  lemma WriteKeeps(t: Tables, w: Write)
    requires Consistent(t) && Permitted(t, w)
    ensures Consistent(Written(t, w)) && Evolves(t, Written(t, w))
  {
    match w
    case AddTask(id, task) => NewTaskKeeps(t, id, task);
    case ChangeTask(id, task) => ChangedTaskKeeps(t, id, task);
    case AddGoal(id, goal) => GoalWriteKeeps(t, id, goal);
    case ChangeGoal(id, goal) => ChangedGoalKeeps(t, id, goal);
    case PutDraft(d, draft) => DraftWriteKeeps(t, d, draft);
  }

  ghost predicate Leads(t: Tables, ws: seq<Write>, t': Tables)
    decreases |ws|
  {
    if ws == [] then t' == t else Permitted(t, ws[0]) && Leads(Written(t, ws[0]), ws[1..], t')
  }

  /** Some permitted writes lead from `t` to `t'`. */
  ghost predicate Reaches(t: Tables, t': Tables) {
    exists ws :: Leads(t, ws, t')
  }

  lemma NothingWritten(t: Tables)
    ensures Reaches(t, t)
  {
    assert Leads(t, [], t);
  }

  lemma OneWritten(t: Tables, w: Write)
    requires Permitted(t, w)
    ensures Reaches(t, Written(t, w))
  {
    assert Leads(Written(t, w), [w][1..], Written(t, w));
    assert Leads(t, [w], Written(t, w));
  }

  lemma {:induction false} LeadsOn(t: Tables, ws: seq<Write>, u: Tables, vs: seq<Write>, v: Tables)
    requires Leads(t, ws, u) && Leads(u, vs, v)
    ensures Leads(t, ws + vs, v)
    decreases |ws|
  {
    if ws == [] {
      assert ws + vs == vs;
    } else {
      LeadsOn(Written(t, ws[0]), ws[1..], u, vs, v);
      HeadAndTail(ws, vs);
    }
  }

  lemma HeadAndTail(ws: seq<Write>, vs: seq<Write>)
    requires ws != []
    ensures (ws + vs)[0] == ws[0] && (ws + vs)[1..] == ws[1..] + vs
  {
  }

  lemma ReachesOn(t: Tables, u: Tables, v: Tables)
    requires Reaches(t, u) && Reaches(u, v)
    ensures Reaches(t, v)
  {
    var ws :| Leads(t, ws, u);
    var vs :| Leads(u, vs, v);
    LeadsOn(t, ws, u, vs, v);
  }

  lemma {:induction false} LeadsKeeps(t: Tables, ws: seq<Write>, t': Tables)
    requires Consistent(t) && Leads(t, ws, t')
    ensures Consistent(t')
    ensures Evolves(t, t')
    decreases |ws|
  {
    if ws != [] {
      var u := Written(t, ws[0]);
      WriteKeeps(t, ws[0]);
      LeadsKeeps(u, ws[1..], t');
      EvolvesTransitive(t, u, t');
    }
  }

  /** Permitted writes keep the tables consistent, and rows change only as they may. */
  lemma ReachesKeeps(t: Tables, t': Tables)
    requires Consistent(t) && Reaches(t, t')
    ensures Consistent(t')
    ensures Evolves(t, t')
  {
    var ws :| Leads(t, ws, t');
    LeadsKeeps(t, ws, t');
  }

  // ---- whole runs ----

  /** A run starts with empty tables, and each of its steps, calls of any length, makes
      permitted writes. */
  ghost predicate IsRun(states: seq<Tables>) {
    states != [] && states[0] == EMPTY && forall i: nat :: i < |states| - 1 ==> Follows(states, i)
  }

  ghost predicate Follows(states: seq<Tables>, i: nat)
    requires i < |states| - 1
  {
    Reaches(states[i], states[i + 1])
  }

  /** The tables are consistent at all times, and rows change only as they may. */
  lemma {:induction false} RunKeeps(states: seq<Tables>, i: nat, j: nat)
    requires IsRun(states) && i <= j < |states|
    ensures Consistent(states[j])
    ensures Evolves(states[i], states[j])
    decreases j
  {
    if j > 0 {
      var k := j - 1;
      RunKeeps(states, if i < j then i else k, k);
      assert Follows(states, k);
      ReachesKeeps(states[k], states[j]);
      if i < j { EvolvesTransitive(states[i], states[k], states[j]); }
    }
  }

  /** Completed and cancelled goals stay what they are, and no goal returns to draft. */
  lemma GoalEndsAreFinal(states: seq<Tables>, i: nat, j: nat, id: string)
    requires IsRun(states) && i <= j < |states| && id in states[i].goals
    ensures id in states[j].goals
    ensures states[i].goals[id].status in {"completed", "cancelled"} ==>
              states[j].goals[id].status == states[i].goals[id].status
    ensures states[i].goals[id].status == "active" ==>
              states[j].goals[id].status in {"active", "completed", "cancelled"}
  {
    RunKeeps(states, i, j);
    assert GoalEvolves(states[i].goals[id], states[j].goals[id]);
  }

  /** Whoever retries, now or later, finds the one task that an execution key has. */
  lemma KeyNamesOneTask(states: seq<Tables>, i: nat, j: nat, id: string, other: string)
    requires IsRun(states) && i <= j < |states| && id in states[i].tasks && other in states[j].tasks
    requires SameTaskKey(states[i].tasks[id], states[j].tasks[other])
    ensures other == id
  {
    RunKeeps(states, i, j);
    assert TaskEvolves(states[i].tasks[id], states[j].tasks[id]);
    assert SameTaskKey(states[j].tasks[id], states[j].tasks[other]);
  }
}
