/** Tasks, plans and jobs of the agent server as interleaved steps. Between two awaits a coroutine runs
    alone, committing one transaction after another: such a section is one step. After any of its
    transactions the store may raise an error, or the process may die. The external write is not
    idempotent. */
module AgentProtocol {
  import opened AgentPlanning
  import opened AgentStore

  datatype Approval = Approval(actor: Actor, at: nat)

  /** A write as it was issued: when its execution was entered, and what was read last. */
  datatype Write = Write(plan: Pid, employee: nat, roles: seq<RoleId>, enteredAt: nat, seen: Reads)

  /** What a crash leaves: the tables, who approved what, and the writes that went out. */
  datatype Db = Db(tasks: Tasks, plans: Plans, approvals: map<Pid, Approval>, writes: seq<Write>)

  datatype Start = Content | Decision(plan: Pid, approved: bool)

  /** Where a job is waiting. */
  datatype Pc =
    | Fresh                  // created, not yet run
    | WaitingSlot
    | Thinking               // the model and the read-only tools
    | Paused(plan: Pid)      // plan committed, on the way to the approval interrupt
    | Resuming
    | Entering
    | Reading(enteredAt: nat)
    | Issued
    | Checking
    | Finishing
    | Ended                  // done, still listed

  datatype Job = Job(start: Start, pc: Pc, stopping: bool)

  /** torn: fail() of a waiting task got only as far as its plans. abandoned: since the last start, a
      queued or running task was left without a job. */
  datatype State = State(now: nat, db: Db, jobs: map<Tid, Job>, torn: set<Tid>, abandoned: set<Tid>)

  const INIT := State(0, Db(map[], map[], map[], []), map[], {}, {})

  // ---------- transactions ----------

  datatype Tx =
    | AddTask(t: Tid, task: Task)
    | SetTask(t: Tid, status: TaskStatus)
    | EndPlans(t: Tid)
    | AddPlan(p: Pid, plan: Plan)
    | SetPlan(p: Pid, planStatus: PlanStatus)
    | Decide(p: Pid, approved: bool, approval: Approval)
    | Issue(w: Write)

  function WithTask(db: Db, t: Tid, status: TaskStatus): Db {
    if t in db.tasks then db.(tasks := db.tasks[t := db.tasks[t].(status := status)]) else db
  }

  function WithPlan(db: Db, p: Pid, status: PlanStatus): Db {
    if p in db.plans then db.(plans := db.plans[p := db.plans[p].(status := status)]) else db
  }

  function Apply(db: Db, tx: Tx): Db {
    match tx
    case AddTask(t, task) => db.(tasks := db.tasks[t := task])
    case SetTask(t, status) => WithTask(db, t, status)
    case EndPlans(t) => db.(plans := EndPlansOf(db.plans, t))
    case AddPlan(p, plan) => db.(plans := db.plans[p := plan])
    case SetPlan(p, status) => WithPlan(db, p, status)
    case Decide(p, approved, approval) =>
      if p in db.plans then
        var d := WithTask(WithPlan(db, p, if approved then Approved else Rejected), db.plans[p].task, Queued);
        if approved then d.(approvals := d.approvals[p := approval]) else d
      else db
    case Issue(w) => db.(writes := db.writes + [w])
  }

  function ApplyAll(db: Db, txs: seq<Tx>): Db
    decreases |txs|
  {
    if txs == [] then db else ApplyAll(Apply(db, txs[0]), txs[1..])
  }

  function Recover(db: Db): Db {
    db.(tasks := RecoverTasks(db.tasks), plans := RecoverPlans(db.tasks, db.plans))
  }

  // ---------- sections ----------

  datatype Reply = Accepted | Error(status: nat)

  datatype Check = Confirmed | Unconfirmed | CheckError

  datatype Action =
    | Tick
    | Send(conversation: Conversation, actor: Actor, t: Tid)
    | Confirm(p: Pid, actor: Actor, approved: bool)
    | Cancel(t: Tid, actor: Actor)
    | Shutdown
    | Begin(t: Tid)
    | NoSlot(t: Tid)
    | Vanish(t: Tid)                     // a job cancelled before its first step
    | Stop(t: Tid)                       // the cancellation reaches a running job
    | Raise(t: Tid)                      // an error or the timeout at an await
    | Preview(t: Tid, p: Pid, payload: Payload, actor: Actor, ttl: nat)
    | Interrupt(t: Tid)
    | Answer(t: Tid)
    | Resume(t: Tid, checkpoint: Pid)
    | Enter(t: Tid, actor: Actor)
    | Recheck(t: Tid, permitted: bool, seen: Reads)
    | Returned(t: Tid, reply: Reply)
    | Verified(t: Tid, check: Check)
    | Finish(t: Tid)
    | Reap(t: Tid)

  datatype Option<+T> = None | Some(value: T)

  /** The transactions of a section, and the jobs after it. */
  datatype Section = Section(txs: seq<Tx>, jobs: map<Tid, Job>)

  predicate At(s: State, t: Tid, pc: Pc) {
    t in s.jobs && s.jobs[t].pc == pc && !s.jobs[t].stopping
  }

  predicate Started(job: Job) {
    !job.pc.Fresh? && !job.pc.Ended?
  }

  function Move(s: State, t: Tid, pc: Pc): map<Tid, Job>
    requires t in s.jobs
  {
    s.jobs[t := s.jobs[t].(pc := pc)]
  }

  function FailTxs(t: Tid, status: TaskStatus): seq<Tx> {
    [EndPlans(t), SetTask(t, status)]
  }

  function Failing(s: State, t: Tid, status: TaskStatus): Section
    requires t in s.jobs
  {
    Section(FailTxs(t, status), Move(s, t, Ended))
  }

  /** The final status of a task whose graph ran to its end, from its plans. */
  function Completion(plans: Plans, t: Tid): TaskStatus {
    if exists p :: p in plans && plans[p].task == t && (plans[p].status.Refusal? || plans[p].status.Unknown? || plans[p].status.Conflict? || plans[p].status.Expired?)
    then Failed
    else if exists p :: p in plans && plans[p].task == t && plans[p].status.Rejected? then Cancelled
    else Succeeded
  }

  predicate HasActive(db: Db, conversation: Conversation) {
    exists t :: t in db.tasks && db.tasks[t].conversation == conversation && db.tasks[t].status.Active()
  }

  function SendSection(s: State, conversation: Conversation, actor: Actor, t: Tid): Option<Section> {
    if t in s.db.tasks || t in s.jobs || HasActive(s.db, conversation) then None
    else Some(Section([AddTask(t, Task(conversation, actor, Queued))], s.jobs[t := Job(Content, Fresh, false)]))
  }

  function DecisionSection(s: State, p: Pid, actor: Actor, approved: bool): Option<Section> {
    if p in s.db.plans && s.db.plans[p].task in s.db.tasks then
      var plan := s.db.plans[p];
      var task := s.db.tasks[plan.task];
      if plan.actor != actor || task.actor != actor || !task.status.Waiting? || !plan.status.Pending? || plan.task in s.jobs
         || (approved && plan.expiresAt <= s.now) then None
      else Some(Section([Decide(p, approved, Approval(actor, s.now))], s.jobs[plan.task := Job(Decision(p, approved), Fresh, false)]))
    else None
  }

  /** Cancelling a listed job only asks it to stop; a job that has ended does not notice. */
  function CancelSection(s: State, t: Tid, actor: Actor): Option<Section> {
    if t !in s.db.tasks || s.db.tasks[t].actor != actor || !s.db.tasks[t].status.Active() then None
    else if t in s.jobs then
      Some(Section([], if s.jobs[t].pc.Ended? then s.jobs else s.jobs[t := s.jobs[t].(stopping := true)]))
    else Some(Section(FailTxs(t, Cancelled), s.jobs))
  }

  function StopAll(jobs: map<Tid, Job>): map<Tid, Job> {
    map t | t in jobs :: if jobs[t].pc.Ended? then jobs[t] else jobs[t].(stopping := true)
  }

  function BeginSection(s: State, t: Tid): Option<Section> {
    if At(s, t, Fresh) || At(s, t, WaitingSlot) then
      Some(Section([SetTask(t, Running)], Move(s, t, if s.jobs[t].start.Content? then Thinking else Resuming)))
    else None
  }

  function PreviewSection(s: State, t: Tid, p: Pid, payload: Payload, actor: Actor, ttl: nat): Option<Section> {
    if !At(s, t, Thinking) || !Sound(payload) || (p in s.db.plans && s.db.plans[p].task != t) then None
    else
      Some(Section(if p in s.db.plans then [] else [AddPlan(p, Plan(t, actor, payload, Pending, s.now + ttl))], Move(s, t, Paused(p))))
  }

  /** The approval node starts over on resume; its plan comes from the checkpoint. */
  function ResumeSection(s: State, t: Tid, checkpoint: Pid): Option<Section> {
    if !At(s, t, Resuming) || !s.jobs[t].start.Decision? then None
    else if checkpoint != s.jobs[t].start.plan then Some(Failing(s, t, Failed))
    else Some(Section([], Move(s, t, Entering)))
  }

  function EnterSection(s: State, t: Tid, actor: Actor): Option<Section> {
    if !At(s, t, Entering) || !s.jobs[t].start.Decision? || s.jobs[t].start.plan !in s.db.plans then None
    else
      var p, approved := s.jobs[t].start.plan, s.jobs[t].start.approved;
      var plan := s.db.plans[p];
      if plan.actor != actor || plan.task != t then Some(Failing(s, t, Failed))
      else if !approved then Some(Section([SetPlan(p, Rejected)], Move(s, t, Finishing)))
      else if plan.status.Done? then Some(Section([], Move(s, t, Finishing)))
      else if !plan.status.Approved? then Some(Failing(s, t, Failed))
      else if plan.expiresAt <= s.now then Some(Section([SetPlan(p, Expired)], Move(s, t, Finishing)))
      else Some(Section([], Move(s, t, Reading(s.now))))
  }

  /** The plan is marked executing, then the write goes out. */
  function RecheckSection(s: State, t: Tid, permitted: bool, seen: Reads): Option<Section> {
    if t !in s.jobs || s.jobs[t].stopping || !s.jobs[t].pc.Reading? || !s.jobs[t].start.Decision? || s.jobs[t].start.plan !in s.db.plans then None
    else
      var p := s.jobs[t].start.plan;
      var payload := s.db.plans[p].payload;
      if !permitted then Some(Failing(s, t, Failed))
      else if !Matches(payload, seen) then Some(Section([SetPlan(p, Conflict)], Move(s, t, Finishing)))
      else
        Some(Section([SetPlan(p, Executing), Issue(Write(p, payload.employee.id, AddedIds(payload), s.jobs[t].pc.enteredAt, seen))],
                     Move(s, t, Issued)))
  }

  function AfterWrite(s: State, t: Tid, status: PlanStatus): Option<Section>
    requires t in s.jobs && s.jobs[t].start.Decision?
  {
    Some(Section([SetPlan(s.jobs[t].start.plan, status)], Move(s, t, Finishing)))
  }

  function ReturnedSection(s: State, t: Tid, reply: Reply): Option<Section> {
    if !At(s, t, Issued) || !s.jobs[t].start.Decision? then None
    else if reply.Accepted? then Some(Section([], Move(s, t, Checking)))
    else AfterWrite(s, t, if reply.status in {400, 401, 403, 404} then Refusal else Unknown)
  }

  function VerifiedSection(s: State, t: Tid, check: Check): Option<Section> {
    if !At(s, t, Checking) || !s.jobs[t].start.Decision? then None
    else AfterWrite(s, t, if check.Confirmed? then Done else Unknown)
  }

  function SectionOf(s: State, a: Action): Option<Section> {
    match a
    case Tick => None
    case Send(conversation, actor, t) => SendSection(s, conversation, actor, t)
    case Confirm(p, actor, approved) => DecisionSection(s, p, actor, approved)
    case Cancel(t, actor) => CancelSection(s, t, actor)
    case Shutdown => Some(Section([], StopAll(s.jobs)))
    case Begin(t) => BeginSection(s, t)
    case NoSlot(t) => if At(s, t, Fresh) then Some(Section([], Move(s, t, WaitingSlot))) else None
    case Vanish(t) => if t in s.jobs && s.jobs[t].pc.Fresh? && s.jobs[t].stopping then Some(Section([], Move(s, t, Ended))) else None
    case Stop(t) => if t in s.jobs && Started(s.jobs[t]) && s.jobs[t].stopping then Some(Failing(s, t, Cancelled)) else None
    case Raise(t) => if t in s.jobs && Started(s.jobs[t]) && !s.jobs[t].stopping then Some(Failing(s, t, Failed)) else None
    case Preview(t, p, payload, actor, ttl) => PreviewSection(s, t, p, payload, actor, ttl)
    case Interrupt(t) => if t in s.jobs && s.jobs[t].pc.Paused? && !s.jobs[t].stopping then Some(Section([SetTask(t, Waiting)], Move(s, t, Ended))) else None
    case Answer(t) => if At(s, t, Thinking) then Some(Section([SetTask(t, Completion(s.db.plans, t))], Move(s, t, Ended))) else None
    case Resume(t, checkpoint) => ResumeSection(s, t, checkpoint)
    case Enter(t, actor) => EnterSection(s, t, actor)
    case Recheck(t, permitted, seen) => RecheckSection(s, t, permitted, seen)
    case Returned(t, reply) => ReturnedSection(s, t, reply)
    case Verified(t, check) => VerifiedSection(s, t, check)
    case Finish(t) => if At(s, t, Finishing) then Some(Section([SetTask(t, Completion(s.db.plans, t))], Move(s, t, Ended))) else None
    case Reap(t) => if t in s.jobs && s.jobs[t].pc.Ended? then Some(Section([], s.jobs - {t})) else None
  }

  /** A section runs to its end; or the store raises an error after its first k transactions, and of the
      fail() that a job answers it with, the first j transactions go through; or after those transactions
      the process dies and restarts. */
  datatype Event = Run(a: Action) | Fault(a: Action, k: nat, j: nat) | Crash(a: Action, k: nat, j: nat)

  predicate OfHandler(a: Action) {
    a.Send? || a.Confirm? || a.Cancel?
  }

  predicate OfJob(a: Action) {
    || a.Begin? || a.Stop? || a.Raise? || a.Preview? || a.Interrupt? || a.Answer?
    || a.Resume? || a.Enter? || a.Recheck? || a.Returned? || a.Verified? || a.Finish?
  }

  predicate IsFail(txs: seq<Tx>) {
    |txs| == 2 && txs[0].EndPlans?
  }

  /** The sections that use the store, and so may see it fail. */
  predicate Stores(s: State, a: Action) {
    (OfHandler(a) || OfJob(a)) && SectionOf(s, a).Some?
  }

  /** The job catches the error and calls fail(); a handler, or fail() itself, lets it through. */
  predicate Caught(s: State, a: Action)
    requires Stores(s, a)
  {
    OfJob(a) && !IsFail(SectionOf(s, a).value.txs)
  }

  function FirstOf(txs: seq<Tx>, k: nat): seq<Tx> {
    if k <= |txs| then txs[..k] else txs
  }

  /** What is committed when the section breaks off: its first k transactions, then the first j of fail(). */
  function TxsUntil(s: State, a: Action, k: nat, j: nat): seq<Tx>
    requires Stores(s, a)
  {
    FirstOf(SectionOf(s, a).value.txs, k) + if Caught(s, a) then FirstOf(FailTxs(a.t, Failed), j) else []
  }

  function StepRun(s: State, a: Action): State {
    if a.Tick? then s.(now := s.now + 1)
    else
      match SectionOf(s, a)
      case None => s
      case Some(section) =>
        s.(db := ApplyAll(s.db, section.txs), jobs := section.jobs,
           abandoned := if a.Vanish? then s.abandoned + {a.t} else s.abandoned)
  }

  /** fail() of a waiting task gets no further than its plans: called by its user when no job is listed, or
      by the job when the report that it waits could not be written. */
  predicate Tears(s: State, a: Action, k: nat, j: nat)
    requires Stores(s, a)
  {
    || (a.Cancel? && s.db.tasks[a.t].status.Waiting? && a.t !in s.jobs && k == 1)
    || (a.Interrupt? && k >= 1 && j == 1)
  }

  /** A queued or running task is left without a job: the error comes after a handler's commit and before
      the job is launched; or it ends the job, and fail() does not get to the task. A task that has just
      been set waiting or finished is not concerned. */
  predicate Strands(s: State, a: Action, k: nat, j: nat)
    requires Stores(s, a)
  {
    match a
    case Send(_, _, _) => k >= 1
    case Confirm(_, _, _) => k >= 1
    case Cancel(_, _) => false
    case Interrupt(_) => k == 0 && j <= 1
    case Answer(_) => k == 0 && j <= 1
    case Finish(_) => k == 0 && j <= 1
    case _ => if Caught(s, a) then j <= 1 else k <= 1
  }

  function TaskOf(s: State, a: Action): Tid
    requires Stores(s, a)
  {
    if a.Confirm? then s.db.plans[a.p].task else a.t
  }

  function StepFault(s: State, a: Action, k: nat, j: nat): State {
    if !Stores(s, a) then s
    else
      s.(db := ApplyAll(s.db, TxsUntil(s, a, k, j)), jobs := if OfJob(a) then Move(s, a.t, Ended) else s.jobs,
         torn := if Tears(s, a, k, j) then s.torn + {a.t} else s.torn,
         abandoned := if Strands(s, a, k, j) then s.abandoned + {TaskOf(s, a)} else s.abandoned)
  }

  function StepCrash(s: State, a: Action, k: nat, j: nat): State {
    var stores := Stores(s, a);
    s.(db := Recover(if stores then ApplyAll(s.db, TxsUntil(s, a, k, j)) else s.db), jobs := map[], abandoned := {},
       torn := if stores && Tears(s, a, k, j) then s.torn + {a.t} else s.torn)
  }

  function Step(s: State, e: Event): State {
    match e
    case Run(a) => StepRun(s, a)
    case Fault(a, k, j) => StepFault(s, a, k, j)
    case Crash(a, k, j) => StepCrash(s, a, k, j)
  }

  // ---------- the invariant ----------

  ghost predicate ApprovedInTime(db: Db, p: Pid) {
    p in db.plans && p in db.approvals && db.approvals[p].actor == db.plans[p].actor && db.approvals[p].at < db.plans[p].expiresAt
  }

  /** A write is what its plan previewed: approved in time by its own actor, entered in time, and matched
      by the last reads. Its plan is past the point of being executed again. */
  ghost predicate WriteOk(db: Db, w: Write) {
    && ApprovedInTime(db, w.plan)
    && var plan := db.plans[w.plan];
      && (plan.status.Executing? || plan.status.Done? || plan.status.Refusal? || plan.status.Unknown?)
      && w.employee == plan.payload.employee.id && w.roles == AddedIds(plan.payload)
      && w.enteredAt < plan.expiresAt
      && Sound(plan.payload) && Matches(plan.payload, w.seen)
  }

  ghost predicate WritesOk(db: Db) {
    && (forall i :: 0 <= i < |db.writes| ==> WriteOk(db, db.writes[i]))
    && (forall i, j :: 0 <= i < j < |db.writes| ==> db.writes[i].plan != db.writes[j].plan)
  }

  predicate IsOf(db: Db, p: Pid, t: Tid) {
    p in db.plans && db.plans[p].task == t
  }

  predicate HasWrite(db: Db, p: Pid) {
    exists i :: 0 <= i < |db.writes| && db.writes[i].plan == p
  }

  /** An approved plan was approved in time; a plan that is done was written. */
  ghost predicate PlanOk(db: Db, p: Pid) {
    && p in db.plans && db.plans[p].task in db.tasks && Sound(db.plans[p].payload)
    && (db.plans[p].status.Approved? ==> ApprovedInTime(db, p))
    && (db.plans[p].status.Done? ==> HasWrite(db, p))
  }

  ghost predicate PlansOk(db: Db) {
    && (forall p {:trigger PlanOk(db, p)} {:trigger db.plans[p]} :: p in db.plans ==> PlanOk(db, p))
    && (forall p, q, t :: IsOf(db, p, t) && IsOf(db, q, t) ==> p == q)
  }

  ghost predicate OneActive(tasks: Tasks) {
    forall t, u :: t in tasks && u in tasks && tasks[t].status.Active() && tasks[u].status.Active() && tasks[t].conversation == tasks[u].conversation ==> t == u
  }

  /** A waiting task has its pending plan, unless it was torn; a finished task has no live plan, and one
      that succeeded only a plan that is done. */
  ghost predicate RestOk(db: Db, torn: set<Tid>, t: Tid)
    requires t in db.tasks
  {
    match db.tasks[t].status
    case Queued => t !in torn
    case Running => t !in torn
    case Waiting => (exists p :: IsOf(db, p, t)) && forall p :: IsOf(db, p, t) ==> if t in torn then !db.plans[p].status.Live() else db.plans[p].status.Pending?
    case Succeeded => forall p :: IsOf(db, p, t) ==> db.plans[p].status.Done?
    case _ => forall p :: IsOf(db, p, t) ==> !db.plans[p].status.Live()
  }

  ghost predicate Base(db: Db, torn: set<Tid>) {
    && PlansOk(db) && WritesOk(db) && OneActive(db.tasks) && torn <= db.tasks.Keys
    && forall t :: t in db.tasks ==> RestOk(db, torn, t)
  }

  ghost predicate PlanIs(db: Db, p: Pid, t: Tid, status: PlanStatus) {
    IsOf(db, p, t) && db.plans[p].status == status
  }

  ghost predicate StartOk(db: Db, t: Tid, start: Start) {
    match start
    case Content => forall p :: !IsOf(db, p, t)
    case Decision(p, approved) => PlanIs(db, p, t, if approved then Approved else Rejected)
  }

  ghost predicate RunningOk(db: Db, t: Tid, job: Job) {
    match job.pc
    case Thinking => job.start.Content? && StartOk(db, t, job.start)
    case Paused(p) => PlanIs(db, p, t, Pending)
    case Resuming => job.start.Decision? && StartOk(db, t, job.start)
    case Entering => job.start.Decision? && StartOk(db, t, job.start)
    case Reading(at) => job.start.Decision? && job.start.approved && PlanIs(db, job.start.plan, t, Approved) && at < db.plans[job.start.plan].expiresAt
    case Issued => job.start.Decision? && job.start.approved && PlanIs(db, job.start.plan, t, Executing) && HasWrite(db, job.start.plan)
    case Checking => job.start.Decision? && job.start.approved && PlanIs(db, job.start.plan, t, Executing) && HasWrite(db, job.start.plan)
    case Finishing => job.start.Decision? && IsOf(db, job.start.plan, t) && !db.plans[job.start.plan].status.Live() && !db.plans[job.start.plan].status.Dropped?
    case _ => false
  }

  ghost predicate Idle(s: State, t: Tid) {
    t in s.jobs ==> s.jobs[t].pc.Ended?
  }

  ghost predicate TaskOk(s: State, t: Tid) {
    && t in s.db.tasks
    && match s.db.tasks[t].status
      case Queued =>
        if Idle(s, t) then t in s.abandoned
        else t !in s.abandoned && (s.jobs[t].pc.Fresh? || s.jobs[t].pc.WaitingSlot?) && StartOk(s.db, t, s.jobs[t].start)
      case Running =>
        if Idle(s, t) then t in s.abandoned
        else t !in s.abandoned && RunningOk(s.db, t, s.jobs[t])
      case Waiting => t !in s.abandoned && Idle(s, t)
      case _ => Idle(s, t)
  }

  ghost predicate Inv(s: State) {
    && Base(s.db, s.torn)
    && (forall t {:trigger TaskOk(s, t)} {:trigger s.db.tasks[t]} :: t in s.db.tasks ==> TaskOk(s, t))
    && (forall t :: t in s.jobs ==> t in s.db.tasks)
    && s.abandoned <= s.db.tasks.Keys
  }

  // ---------- whole runs ----------

  /** The state after any sequence of steps and crashes from the start. */
  ghost function Exec(run: seq<Event>): State {
    if run == [] then INIT else Step(Exec(run[..|run| - 1]), run[|run| - 1])
  }
}
