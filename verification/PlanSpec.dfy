/**
 Every operation on the Feature Plan tables as a function from tables to tables.
 A failed call may still leave reconciliations behind; nothing else.
 */
module PlanSpec {
  import opened Basics
  import opened DependencyGraph
  import opened PlanTables

  datatype Error =
    | ProjectRequired
    | BadTaskId
    | DuplicateTask(task: int)
    | BadDependencyId
    | ObjectiveTooShort
    | NoCriteria
    | NoTasks
    | KeyTooLong
    | UnknownProject
    | UnknownTask(task: int)
    | TaskOutsideProject(task: int)
    | TaskTaken(task: int)
    | TaskLinked(task: int)
    | TaskPrepared(task: int)
    | TaskExecuted(task: int)
    | TaskBusy(task: int)
    | KeyReused
    | SelfDependency
    | UnknownPlan(plan: int)
    | CrossProjectDependency(plan: int)
    | DependencyCycle
    | DependencyExists
    | PlanTerminal(status: Status)
    | InvalidTransition(from: Status, to: Status)
    | NotEligible(verdict: Verdict)
    | IntegrationStarted
    | IntegrationDiffers
    | IntegrationIncomplete
    | ProjectMismatch

  /** `applied`: the call itself wrote, beyond reconciling. */
  datatype Outcome =
    | Done(plan: int, applied: bool)
    | Failed(error: Error)
    | Judged(verdict: Verdict)

  datatype Step = Step(store: Store, outcome: Outcome)

  datatype CreateRequest = CreateRequest(projectKey: string, objective: string, criteria: seq<string>,
    tasks: seq<TaskChoice>, priority: int, dependsOn: seq<int>, key: string)

  datatype ReplanRequest = ReplanRequest(plan: int, objective: string, criteria: seq<string>,
    tasks: seq<TaskChoice>, key: string)

  datatype IntegrationRequest = IntegrationRequest(plan: int, project: int, planRevision: int,
    branch: string, worktreeInput: string, worktree: string)

  /** What the queue does not know of a task: a prepared worktree, goal runs, and whether it is queued or cancelled. */
  datatype TaskState = TaskState(prepared: bool, executed: bool, idle: bool)

  datatype Call =
    | RegisterProject(projectKey: string)
    | CreateTask(project: Option<int>)
    | DeleteTask(task: int, state: TaskState)
    | SetFeatureMerged(id: int, merged: bool)
    | ReadPlans(ids: set<int>)
    | CreatePlan(create: CreateRequest)
    | PausePlan(id: int)
    | ResumePlan(id: int)
    | SetPriority(id: int, priority: int)
    | AddDependency(id: int, on: int)
    | RemoveDependency(id: int, on: int)
    | SetStatus(id: int, to: Status)
    | CompleteAfterMerge(id: int)
    | AdmitPlan(id: int)
    | EvaluateEligibility(id: int)
    | CancelPlan(id: int)
    | ReplanPlan(replan: ReplanRequest)
    | CreateIntegration(integration: IntegrationRequest)

  // Request shape

  function Ids(tasks: seq<TaskChoice>): (ids: seq<int>)
    ensures |ids| == |tasks| && forall i :: 0 <= i < |ids| ==> ids[i] == tasks[i].id
  {
    seq(|tasks|, i requires 0 <= i < |tasks| => tasks[i].id)
  }

  /** The first complaint of uniqueTaskIds. */
  function TaskIdsError(ids: seq<int>): Option<Error> {
    if ids == [] then None
    else
      var init, id := ids[..|ids| - 1], ids[|ids| - 1];
      match TaskIdsError(init)
      case Some(e) => Some(e)
      case None => if id <= 0 then Some(BadTaskId) else if id in init then Some(DuplicateTask(id)) else None
  }

  predicate NonEmpty(text: string) {
    text != ""
  }

  function Criteria(raw: seq<string>): seq<string> {
    Keep(raw, NonEmpty)
  }

  /** The first complaint of normalizeFeaturePlanInput. */
  function ShapeError(projectKey: string, objective: string, criteria: seq<string>, ids: seq<int>,
                      dependsOn: seq<int>, key: string): Option<Error>
  {
    if projectKey == "" then Some(ProjectRequired)
    else if TaskIdsError(ids).Some? then TaskIdsError(ids)
    else if exists d :: d in dependsOn && d <= 0 then Some(BadDependencyId)
    else if |objective| < 8 then Some(ObjectiveTooShort)
    else if Criteria(criteria) == [] then Some(NoCriteria)
    else if ids == [] then Some(NoTasks)
    else if |key| > 120 then Some(KeyTooLong)
    else None
  }

  /** The first complaint of validateFeaturePlanTasks. */
  function TaskProjectError(tasks: map<int, Option<int>>, project: int, ids: seq<int>): Option<Error> {
    if ids == [] then None
    else
      var id := ids[|ids| - 1];
      match TaskProjectError(tasks, project, ids[..|ids| - 1])
      case Some(e) => Some(e)
      case None =>
        if id !in tasks then Some(UnknownTask(id))
        else if tasks[id] != Some(project) then Some(TaskOutsideProject(id))
        else None
  }

  ghost predicate HasTask(s: Store, plan: int, task: int) {
    plan in s.taskRows && exists r :: r in s.taskRows[plan] && r.task == task
  }

  /** Some plan other than `except` that is neither completed nor cancelled has the task. */
  ghost predicate Taken(s: Store, task: int, except: int) {
    exists p :: p in s.plans && p != except && !Terminal(s.plans[p].status) && HasTask(s, p, task)
  }

  /** The first complaint of validateFeaturePlanTaskAvailability. */
  ghost function AvailabilityError(s: Store, ids: seq<int>, except: int): Option<Error> {
    if ids == [] then None
    else
      match AvailabilityError(s, ids[..|ids| - 1], except)
      case Some(e) => Some(e)
      case None =>
        if Taken(s, ids[|ids| - 1], except) then Some(TaskTaken(ids[|ids| - 1])) else None
  }

  /**
   The first complaint about the dependencies of a plan under creation. The cycle search is
   absent here: see PlanOperations.FreshPlanHasNoCycle.
   */
  function FreshDependencyError(s: Store, project: int, ds: seq<int>): Option<Error> {
    if ds == [] then None
    else
      var d := ds[|ds| - 1];
      match FreshDependencyError(s, project, ds[..|ds| - 1])
      case Some(e) => Some(e)
      case None =>
        if d == s.nextPlan then Some(SelfDependency)
        else if d !in s.plans then Some(UnknownPlan(d))
        else if s.plans[d].project != project then Some(CrossProjectDependency(d))
        else None
  }

  function RowsFor(tasks: seq<TaskChoice>): (rows: seq<TaskRow>)
    ensures |rows| == |tasks|
  {
    seq(|tasks|, i requires 0 <= i < |tasks| => TaskRow(tasks[i].id, i + 1, tasks[i].contract))
  }

  // Reads that reconcile

  function DepSet(s: Store, id: int): set<int>
    requires id in s.deps
  {
    Elements(s.deps[id])
  }

  /** The occupied plans of the project, lowest id first, up to and including the first that stays occupied. */
  function ActivePrefix(s: Store, id: int): set<int> {
    set j | j in s.plans && OccupiedOther(s, id, j)
      && (forall k :: k in s.plans && k < j && OccupiedOther(s, id, k) ==> Mergeable(s, k))
  }

  /** The plans that one eligibility evaluation reconciles. */
  function Touched(s: Store, id: int): set<int>
    requires Shaped(s) && id in s.plans
  {
    var p := ReconcileSet(s, {id}).plans[id];
    if p.status != Queued || p.paused then {id}
    else
      var near := {id} + DepSet(s, id);
      var t := ReconcileSet(s, near);
      if exists d :: d in s.deps[id] && d in t.plans && t.plans[d].status != Completed then near
      else near + ActivePrefix(t, id)
  }

  function Judge(s: Store, id: int): Verdict
    requires Shaped(s) && id in s.plans
  {
    EagerVerdict(ReconcileAll(s), id)
  }

  // Writes

  function Evaluate(s: Store, id: int): Step
    requires Shaped(s)
  {
    if id !in s.plans then Step(s, Failed(UnknownPlan(id)))
    else Step(ReconcileSet(s, Touched(s, id)), Judged(Judge(s, id)))
  }

  /** A plan row write with its audit row, followed by the reconciling read of the answer. */
  function Write(s: Store, id: int, p: Plan, action: Action): Step
    requires Aligned(s) && id in s.plans
  {
    Step(Reconcile(Log(s, id, p, action), id), Done(id, true))
  }

  function Read(s: Store, id: int): Step
    requires Aligned(s)
  {
    Step(Reconcile(s, id), Done(id, false))
  }

  function Pause(s: Store, id: int): Step
    requires Aligned(s)
  {
    if id !in s.plans then Step(s, Failed(UnknownPlan(id)))
    else
      var p := s.plans[id];
      if p.paused then Read(s, id)
      else if Terminal(p.status) then Step(s, Failed(PlanTerminal(p.status)))
      else Write(s, id, p.(paused := true), Paused)
  }

  function Resume(s: Store, id: int): Step
    requires Aligned(s)
  {
    if id !in s.plans then Step(s, Failed(UnknownPlan(id)))
    else if !s.plans[id].paused then Read(s, id)
    else Write(s, id, s.plans[id].(paused := false), Resumed)
  }

  function Prioritize(s: Store, id: int, priority: int): Step
    requires Aligned(s)
  {
    if id !in s.plans then Step(s, Failed(UnknownPlan(id)))
    else
      var p := s.plans[id];
      if p.priority == priority then Read(s, id)
      else Write(s, id, p.(priority := priority), PrioritySet(p.priority, priority))
  }

  /** Plan `id` depends on `ds` from now on, and its audit log says so. */
  function Relinked(s: Store, id: int, ds: seq<int>, action: Action): (t: Store)
    requires Aligned(s) && id in s.plans
    ensures Aligned(t)
  {
    Log(s.(deps := s.deps[id := ds]), id, s.plans[id], action)
  }

  ghost function Depend(s: Store, id: int, on: int): Step
    requires Shaped(s)
  {
    if id == on then Step(s, Failed(SelfDependency))
    else if id !in s.plans then Step(s, Failed(UnknownPlan(id)))
    else if on !in s.plans then Step(s, Failed(UnknownPlan(on)))
    else if s.plans[id].project != s.plans[on].project then Step(s, Failed(CrossProjectDependency(on)))
    else if Reaches(s.deps, on, id) then Step(s, Failed(DependencyCycle))
    else if on in s.deps[id] then Step(s, Failed(DependencyExists))
    else
      Step(Reconcile(Relinked(s, id, s.deps[id] + [on], DependencyAdded(on)), id), Done(id, true))
  }

  function Undepend(s: Store, id: int, on: int): Step
    requires Shaped(s)
  {
    if id !in s.plans then Step(s, Failed(UnknownPlan(id)))
    else
      var ds := Keep(s.deps[id], d => d != on);
      Step(Reconcile(Relinked(s, id, ds, DependencyRemoved(on)), id), Done(id, true))
  }

  function Transition(s: Store, id: int, to: Status): Step
    requires Aligned(s)
  {
    if id !in s.plans then Step(s, Failed(UnknownPlan(id)))
    else
      var p := s.plans[id];
      if p.status == to then Read(s, id)
      else if !AllowedTransition(p.status, to) then Step(s, Failed(InvalidTransition(p.status, to)))
      else Write(s, id, p.(status := to), StatusChanged)
  }

  function Complete(s: Store, id: int): Step
    requires Aligned(s)
  {
    if id !in s.plans then Step(s, Failed(UnknownPlan(id)))
    else
      var p := s.plans[id];
      if p.status == Completed then Read(s, id)
      else if p.status == Cancelled then Step(s, Failed(PlanTerminal(Cancelled)))
      else Write(s, id, p.(status := Completed), ReconciledAfterFeatureMerge)
  }

  function Admit(s: Store, id: int): Step
    requires Shaped(s)
  {
    if id !in s.plans then Step(s, Failed(UnknownPlan(id)))
    else if Occupied(s.plans[id].status) || s.plans[id].status == Completed then Read(s, id)
    else
      var t := ReconcileSet(s, Touched(s, id));
      var v := Judge(s, id);
      if v.Eligible? then Transition(t, id, Admitted) else Step(t, Failed(NotEligible(v)))
  }

  function Cancel(s: Store, id: int): Step
    requires Aligned(s)
  {
    if id !in s.plans then Step(s, Failed(UnknownPlan(id)))
    else
      var p := s.plans[id];
      if p.status == Cancelled then Read(s, id)
      else if p.status == Completed then Step(s, Failed(PlanTerminal(Completed)))
      else if id in s.integrations then Step(s, Failed(IntegrationStarted))
      else Write(s, id, p.(status := Cancelled), CancelRequested)
  }

  /** The tables with one more plan, its tasks, its dependencies and its first audit row. */
  function WithNewPlan(s: Store, p: Plan, tasks: seq<TaskChoice>, ds: seq<int>): Store {
    var id := s.nextPlan;
    s.(plans := s.plans[id := p], deps := s.deps[id := ds], taskRows := s.taskRows[id := RowsFor(tasks)],
       history := s.history[id := [HistoryRow(None, Queued, Created(p.priority))]], nextPlan := id + 1)
  }

  /** Remember the request under its idempotency key, if it has one. */
  function Remember(s: Store, key: string, op: Operation): (t: Store)
    ensures t == s.(operations := t.operations)
  {
    if key == "" then s else s.(operations := s.operations[key := op])
  }

  /** A request under a key that is in use. */
  function Reuse(s: Store, key: string, payload: Payload): Step
    requires Aligned(s) && key in s.operations
  {
    if s.operations[key].payload == payload then Read(s, s.operations[key].plan) else Step(s, Failed(KeyReused))
  }

  function CreatePayloadOf(project: int, r: CreateRequest): Payload {
    CreatePayload(project, r.objective, Criteria(r.criteria), r.tasks, r.priority, Dedup(r.dependsOn))
  }

  ghost function Create(s: Store, r: CreateRequest): Step
    requires Shaped(s)
  {
    var shape := ShapeError(r.projectKey, r.objective, r.criteria, Ids(r.tasks), r.dependsOn, r.key);
    if shape.Some? then Step(s, Failed(shape.value))
    else if r.projectKey !in s.projects then Step(s, Failed(UnknownProject))
    else
      var project := s.projects[r.projectKey];
      var payload := CreatePayloadOf(project, r);
      var bad := TaskProjectError(s.tasks, project, Ids(r.tasks));
      if bad.Some? then Step(s, Failed(bad.value))
      else if r.key != "" && r.key in s.operations then Reuse(s, r.key, payload)
      else
        var taken := AvailabilityError(s, Ids(r.tasks), -1);
        var link := FreshDependencyError(s, project, payload.dependsOn);
        if taken.Some? then Step(s, Failed(taken.value))
        else if link.Some? then Step(s, Failed(link.value))
        else
          var p := Plan(project, r.objective, payload.criteria, Queued, r.priority, false, 1);
          var t := WithNewPlan(s, p, r.tasks, payload.dependsOn);
          Step(Remember(t, r.key, Operation(s.nextPlan, payload)), Done(s.nextPlan, true))
  }

  function ReplanPayloadOf(r: ReplanRequest): Payload {
    ReplanPayload(r.plan, r.objective, Criteria(r.criteria), r.tasks)
  }

  /** The plan with its new objective and tasks, one revision on, and its audit row. */
  function Retasked(s: Store, r: ReplanRequest): (t: Store)
    requires Aligned(s) && r.plan in s.plans
    ensures Aligned(t)
  {
    var p := s.plans[r.plan];
    Log(s.(taskRows := s.taskRows[r.plan := RowsFor(r.tasks)]), r.plan,
        p.(objective := r.objective, criteria := Criteria(r.criteria), revision := p.revision + 1),
        Replanned(p.revision + 1))
  }

  /** The first complaint about replanning an existing plan as asked. */
  ghost function ReplanError(s: Store, r: ReplanRequest): Option<Error>
    requires Shaped(s) && r.plan in s.plans
  {
    var p := s.plans[r.plan];
    if Terminal(p.status) then Some(PlanTerminal(p.status))
    else if r.plan in s.integrations then Some(IntegrationStarted)
    else
      match TaskProjectError(s.tasks, p.project, Ids(r.tasks))
      case Some(e) => Some(e)
      case None => AvailabilityError(s, Ids(r.tasks), r.plan)
  }

  ghost function Replan(s: Store, r: ReplanRequest): Step
    requires Shaped(s)
  {
    if r.plan !in s.plans then Step(s, Failed(UnknownPlan(r.plan)))
    else
      var payload := ReplanPayloadOf(r);
      var shape := ShapeError("-", r.objective, r.criteria, Ids(r.tasks), [], r.key);
      if shape.Some? then Step(s, Failed(shape.value))
      else if r.key != "" && r.key in s.operations then Reuse(s, r.key, payload)
      else
        match ReplanError(s, r)
        case Some(e) => Step(s, Failed(e))
        case None =>
          var t := Remember(Retasked(s, r), r.key, Operation(r.plan, payload));
          Step(Reconcile(t, r.plan), Done(r.plan, true))
  }

  function Integrate(s: Store, r: IntegrationRequest): Step
    requires Shaped(s)
  {
    if r.plan !in s.plans then Step(s, Failed(UnknownPlan(r.plan)))
    else if s.plans[r.plan].project != r.project then Step(s, Failed(ProjectMismatch))
    else
      var row := Integration(r.project, r.planRevision, r.branch, r.worktree);
      if r.plan in s.integrations then
        if s.integrations[r.plan] == row then Step(s, Done(r.plan, false))
        else Step(s, Failed(IntegrationDiffers))
      else if r.branch == "" || r.worktreeInput == "" then Step(s, Failed(IntegrationIncomplete))
      else Step(s.(integrations := s.integrations[r.plan := row]), Done(r.plan, true))
  }

  // The surroundings: projects, tasks and Features change under the queue's feet

  function Register(s: Store, key: string): Step {
    if key in s.projects then Step(s, Done(s.projects[key], false))
    else Step(s.(projects := s.projects[key := s.nextProject], nextProject := s.nextProject + 1),
              Done(s.nextProject, true))
  }

  function NewTask(s: Store, project: Option<int>): Step {
    Step(s.(tasks := s.tasks[s.nextTask := project], nextTask := s.nextTask + 1), Done(s.nextTask, true))
  }

  /** deleteTask, with its refusals in order. */
  ghost function DropTask(s: Store, task: int, state: TaskState): Step {
    if task !in s.tasks then Step(s, Failed(UnknownTask(task)))
    else if state.prepared then Step(s, Failed(TaskPrepared(task)))
    else if state.executed then Step(s, Failed(TaskExecuted(task)))
    else if exists p :: HasTask(s, p, task) then Step(s, Failed(TaskLinked(task)))
    else if !state.idle then Step(s, Failed(TaskBusy(task)))
    else Step(s.(tasks := map t | t in s.tasks && t != task :: s.tasks[t]), Done(task, true))
  }

  function MarkFeature(s: Store, id: int, merged: bool): Step {
    if id !in s.plans then Step(s, Failed(UnknownPlan(id)))
    else Step(s.(merged := if merged then s.merged + {id} else s.merged - {id}), Done(id, true))
  }

  ghost function Apply(s: Store, c: Call): Step
    requires Shaped(s)
  {
    match c
    case RegisterProject(key) => Register(s, key)
    case CreateTask(project) => NewTask(s, project)
    case DeleteTask(task, state) => DropTask(s, task, state)
    case SetFeatureMerged(id, merged) => MarkFeature(s, id, merged)
    case ReadPlans(ids) => Step(ReconcileSet(s, ids), Done(0, false))
    case CreatePlan(r) => Create(s, r)
    case PausePlan(id) => Pause(s, id)
    case ResumePlan(id) => Resume(s, id)
    case SetPriority(id, priority) => Prioritize(s, id, priority)
    case AddDependency(id, on) => Depend(s, id, on)
    case RemoveDependency(id, on) => Undepend(s, id, on)
    case SetStatus(id, to) => Transition(s, id, to)
    case CompleteAfterMerge(id) => Complete(s, id)
    case AdmitPlan(id) => Admit(s, id)
    case EvaluateEligibility(id) => Evaluate(s, id)
    case CancelPlan(id) => Cancel(s, id)
    case ReplanPlan(r) => Replan(s, r)
    case CreateIntegration(r) => Integrate(s, r)
  }
}
