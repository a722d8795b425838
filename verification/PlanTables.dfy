/**
 The tables behind the Feature Plan queue, and the reading rules every operation shares:
 which plan is occupied, what a merged Feature changes, what an audit row means, and what
 makes a plan eligible.
 */
module PlanTables {
  import opened Basics
  import opened DependencyGraph

  datatype Status = Queued | Admitted | Active | WaitingReview | WaitingMerge | Blocked | Completed | Cancelled

  /** The statuses that hold the project's writer lease. */
  predicate Occupied(s: Status) {
    s in {Admitted, Active, WaitingReview, WaitingMerge}
  }

  predicate Terminal(s: Status) {
    s in {Completed, Cancelled}
  }

  /** The transition table of updateFeaturePlanQueueStatus. */
  predicate AllowedTransition(from: Status, to: Status) {
    match from
    case Queued => to in {Admitted, Blocked, Cancelled}
    case Admitted => to in {Active, Blocked, Cancelled}
    case Active => to in {WaitingReview, Blocked, Cancelled}
    case WaitingReview => to in {WaitingMerge, Blocked, Cancelled}
    case WaitingMerge => to in {Completed, Blocked, Cancelled}
    case Blocked => to in {Queued, Cancelled}
    case Completed => false
    case Cancelled => false
  }

  datatype Plan = Plan(project: int, objective: string, criteria: seq<string>, status: Status,
                       priority: int, paused: bool, revision: nat)

  datatype TaskRow = TaskRow(task: int, position: nat, contract: string)

  /** The `action` column of an audit row together with its metadata. */
  datatype Action =
    | Created(priority: int)
    | Paused
    | Resumed
    | PrioritySet(previous: int, priority: int)
    | DependencyAdded(on: int)
    | DependencyRemoved(on: int)
    | StatusChanged
    | ReconciledAfterFeatureMerge
    | CancelRequested
    | Replanned(revision: nat)

  datatype HistoryRow = HistoryRow(from: Option<Status>, to: Status, action: Action)

  datatype TaskChoice = TaskChoice(id: int, contract: string)

  /** What a request hash covers; the hash is taken to be injective. */
  datatype Payload =
    | CreatePayload(project: int, objective: string, criteria: seq<string>, tasks: seq<TaskChoice>,
                    priority: int, dependsOn: seq<int>)
    | ReplanPayload(plan: int, objective: string, criteria: seq<string>, tasks: seq<TaskChoice>)

  datatype Operation = Operation(plan: int, payload: Payload)

  datatype Integration = Integration(project: int, planRevision: int, branch: string, worktree: string)

  /** All tables. Rows that belong to one plan are kept per plan, in row-id order. */
  datatype Store = Store(
    projects: map<string, int>,
    tasks: map<int, Option<int>>,
    plans: map<int, Plan>,
    deps: Graph,
    taskRows: map<int, seq<TaskRow>>,
    history: map<int, seq<HistoryRow>>,
    operations: map<string, Operation>,
    integrations: map<int, Integration>,
    merged: set<int>,
    nextProject: int,
    nextTask: int,
    nextPlan: int)

  const EMPTY := Store(map[], map[], map[], map[], map[], map[], map[], map[], {}, 1, 1, 1)

  /** Foreign keys and auto-increment: every reference points at a row, and fresh ids are fresh. */
  ghost predicate Shaped(s: Store) {
    && s.deps.Keys == s.plans.Keys && s.taskRows.Keys == s.plans.Keys && s.history.Keys == s.plans.Keys
    && (forall id :: id in s.plans ==> 0 < id < s.nextPlan)
    && (forall a, b :: Edge(s.deps, a, b) ==> b in s.plans)
    && s.integrations.Keys <= s.plans.Keys && s.merged <= s.plans.Keys
    && (forall k :: k in s.operations ==> s.operations[k].plan in s.plans)
    && (forall t :: t in s.tasks ==> 0 < t < s.nextTask)
    && 0 < s.nextPlan && 0 < s.nextTask
  }

  // Audit rows

  datatype View = View(status: Status, paused: bool, priority: int, revision: nat)

  function ViewOf(p: Plan): View {
    View(p.status, p.paused, p.priority, p.revision)
  }

  function Birth(priority: int): View {
    View(Queued, false, priority, 1)
  }

  /** The effect an audit row claims. */
  function ReplayRow(v: View, row: HistoryRow): View {
    var moved := v.(status := row.to);
    match row.action
    case Paused => moved.(paused := true)
    case Resumed => moved.(paused := false)
    case PrioritySet(_, priority) => moved.(priority := priority)
    case Replanned(_) => moved.(revision := v.revision + 1)
    case _ => moved
  }

  function Replay(v: View, rows: seq<HistoryRow>): View {
    if rows == [] then v
    else ReplayRow(Replay(v, rows[..|rows| - 1]), rows[|rows| - 1])
  }

  function ReplayDeps(ds: seq<int>, rows: seq<HistoryRow>): seq<int> {
    if rows == [] then ds
    else
      var before := ReplayDeps(ds, rows[..|rows| - 1]);
      match rows[|rows| - 1].action
      case DependencyAdded(on) => before + [on]
      case DependencyRemoved(on) => Keep(before, d => d != on)
      case _ => before
  }

  /** When a row is a legal next row for a plan that looks like `v`. */
  predicate RowFits(v: View, row: HistoryRow) {
    && row.from == Some(v.status)
    && match row.action
       case Created(_) => false
       case StatusChanged => AllowedTransition(v.status, row.to)
       case ReconciledAfterFeatureMerge => !Terminal(v.status) && row.to == Completed
       case CancelRequested => !Terminal(v.status) && row.to == Cancelled
       case Paused => row.to == v.status && !v.paused && !Terminal(v.status)
       case Resumed => row.to == v.status && v.paused
       case PrioritySet(previous, priority) => row.to == v.status && previous == v.priority != priority
       case Replanned(revision) => row.to == v.status && !Terminal(v.status) && revision == v.revision + 1
       case _ => row.to == v.status
  }

  predicate Fits(v: View, rows: seq<HistoryRow>) {
    rows == [] || (Fits(v, rows[..|rows| - 1]) && RowFits(Replay(v, rows[..|rows| - 1]), rows[|rows| - 1]))
  }

  // Writing a plan row together with its audit row

  function Log(s: Store, id: int, p: Plan, action: Action): Store
    requires id in s.plans && id in s.history
  {
    s.(plans := s.plans[id := p],
       history := s.history[id := s.history[id] + [HistoryRow(Some(s.plans[id].status), p.status, action)]])
  }

  // Listing the tasks of a plan: ORDER BY position

  function InsertByPosition(rows: seq<TaskRow>, row: TaskRow): seq<TaskRow> {
    if rows == [] || rows[|rows| - 1].position <= row.position then rows + [row]
    else InsertByPosition(rows[..|rows| - 1], row) + [rows[|rows| - 1]]
  }

  function ListTasks(rows: seq<TaskRow>): seq<TaskRow> {
    if rows == [] then [] else InsertByPosition(ListTasks(rows[..|rows| - 1]), rows[|rows| - 1])
  }

  // Lazy reconciliation

  /** The plan's Feature is completed but the plan row does not say so yet. */
  predicate Mergeable(s: Store, id: int) {
    id in s.plans && !Terminal(s.plans[id].status) && id in s.merged
  }

  /** Every plan has its audit log. */
  predicate Aligned(s: Store) {
    s.history.Keys == s.plans.Keys
  }

  function Reconcile(s: Store, id: int): (t: Store)
    requires Aligned(s)
    ensures Aligned(t) && t == s.(plans := t.plans, history := t.history)
  {
    if Mergeable(s, id) then Log(s, id, s.plans[id].(status := Completed), ReconciledAfterFeatureMerge) else s
  }

  /** A plan row and its audit log once the merge of its Feature is noticed. */
  function MergedPlan(p: Plan, noticed: bool): Plan {
    if noticed then p.(status := Completed) else p
  }

  function MergedLog(h: seq<HistoryRow>, p: Plan, noticed: bool): seq<HistoryRow> {
    if noticed then h + [HistoryRow(Some(p.status), Completed, ReconciledAfterFeatureMerge)] else h
  }

  /** The tables after the plans in `ids` were reconciled, in no particular order. */
  function ReconcileSet(s: Store, ids: set<int>): (t: Store)
    requires Aligned(s)
    ensures Aligned(t) && t == s.(plans := t.plans, history := t.history)
  {
    s.(plans := map id | id in s.plans :: MergedPlan(s.plans[id], id in ids && Mergeable(s, id)),
       history := map id | id in s.history :: MergedLog(s.history[id], s.plans[id], id in ids && Mergeable(s, id)))
  }

  function ReconcileAll(s: Store): Store
    requires Aligned(s)
  {
    ReconcileSet(s, s.plans.Keys)
  }

  // Eligibility

  datatype Verdict =
    | Eligible
    | WrongStatus(status: Status)
    | IsPaused
    | WaitingOn(blocked: seq<(int, Status)>)
    | ProjectBusy(plan: int, status: Status)

  predicate OccupiedOther(s: Store, id: int, j: int) {
    id in s.plans && j in s.plans && j != id && s.plans[j].project == s.plans[id].project
    && Occupied(s.plans[j].status)
  }

  /** The rule as the design states it. */
  ghost predicate EligibleIn(s: Store, id: int)
    requires Shaped(s)
  {
    && id in s.plans && s.plans[id].status == Queued && !s.plans[id].paused
    && (forall d :: Edge(s.deps, id, d) ==> s.plans[d].status == Completed)
    && (forall j :: !OccupiedOther(s, id, j))
  }

  /** The dependencies in `ds` that are not completed, with their statuses, in row order. */
  function Unfinished(s: Store, ds: seq<int>): seq<(int, Status)>
    requires forall d :: d in ds ==> d in s.plans
  {
    if ds == [] then []
    else
      var init, d := Unfinished(s, ds[..|ds| - 1]), ds[|ds| - 1];
      if s.plans[d].status == Completed then init else init + [(d, s.plans[d].status)]
  }

  /** The lowest id at or above `from` that occupies the project of `id`. */
  function FirstOccupied(s: Store, id: int, from: int): (r: Option<int>)
    ensures r.Some? ==> from <= r.value && OccupiedOther(s, id, r.value)
    ensures forall k :: from <= k < (if r.Some? then r.value else s.nextPlan) ==> !OccupiedOther(s, id, k)
    decreases s.nextPlan - from
  {
    if from >= s.nextPlan then None
    else if OccupiedOther(s, id, from) then Some(from)
    else FirstOccupied(s, id, from + 1)
  }

  /** The verdict on tables in which nothing is left to reconcile. */
  function EagerVerdict(s: Store, id: int): Verdict
    requires Shaped(s) && id in s.plans
  {
    var p := s.plans[id];
    if p.status != Queued then WrongStatus(p.status)
    else if p.paused then IsPaused
    else
      assert forall d :: d in s.deps[id] ==> Edge(s.deps, id, d);
      var blocked := Unfinished(s, s.deps[id]);
      if blocked != [] then WaitingOn(blocked)
      else
        match FirstOccupied(s, id, 1)
        case None => Eligible
        case Some(j) => ProjectBusy(j, s.plans[j].status)
  }
}
