/** The agent server's handlers and its execute node as they are written. Between two awaits each runs
    alone; at an await the others run: `schedule` is what they do in each. Any use of the store may raise
    an error: an event is then cut short, and a handler answers 500. */
module AgentServer {
  import opened AgentPlanning
  import opened AgentStore
  import opened AgentProtocol
  import opened AgentTransactions
  import opened AgentSections
  import opened AgentRecovery
  import opened AgentTheorems

  /** A step of the job of task t itself. */
  predicate Own(a: Action, t: Tid) {
    match a
    case Tick => false
    case Send(_, _, _) => false
    case Confirm(_, _, _) => false
    case Cancel(_, _) => false
    case Shutdown => false
    case _ => a.t == t
  }

  /** The job is where it was; it may have been asked to stop. */
  predicate JobKept(s: State, s': State, t: Tid) {
    t in s.jobs && t in s'.jobs && s'.jobs[t] == s.jobs[t].(stopping := s'.jobs[t].stopping)
  }

  lemma OthersKeepJob(s: State, e: Event, t: Tid)
    requires t in s.jobs && !s.jobs[t].pc.Ended? && !e.Crash? && !Own(e.a, t)
    ensures JobKept(s, Step(s, e), t)
  {
    hide ApplyAll, HasActive, Completion, Matches, Sound, TxsUntil;
  }

  class Server {
    var s: State
    ghost var run: seq<Event>
    const schedule: nat -> seq<Event>
    var awaits: nat

    constructor (schedule: nat -> seq<Event>)
      ensures Ok() && s == INIT && this.schedule == schedule
    {
      s, run, awaits := INIT, [], 0;
      this.schedule := schedule;
      new;
      Starts();
    }

    ghost predicate Ok()
      reads this
    {
      s == Exec(run)
    }

    ghost predicate Leaves(t: Tid) {
      forall n, e :: e in schedule(n) ==> !e.Crash? && !Own(e.a, t)
    }

    method Do(e: Event)
      requires Ok()
      modifies this
      ensures Ok() && s == Step(old(s), e) && run == old(run) + [e]
    {
      hide Step, Exec, Inv;
      ExecStep(run, e);
      s := Step(s, e);
      run := run + [e];
    }

    /** The section runs to its end, or the store breaks it off. */
    method Try(a: Action) returns (ok: bool, k: nat, j: nat)
      requires Ok()
      modifies this
      ensures Ok() && s == (if ok then StepRun(old(s), a) else StepFault(old(s), a, k, j))
      ensures run == old(run) + [if ok then Run(a) else Fault(a, k, j)]
    {
      hide StepRun, StepFault, Exec, Inv;
      k, j := 0, 0;
      if * {
        Do(Run(a));
        return true, k, j;
      }
      k, j := *, *;
      Do(Fault(a, k, j));
      ok := false;
    }

    /** The others run while the job of t awaits. */
    method Await(t: Tid)
      requires Ok() && Leaves(t) && t in s.jobs && !s.jobs[t].pc.Ended?
      modifies this
      ensures Ok() && JobKept(old(s), s, t) && old(run) <= run
    {
      hide Step, Exec, Inv;
      var todo := schedule(awaits);
      awaits := awaits + 1;
      for k := 0 to |todo|
        invariant Ok() && JobKept(old(s), s, t) && old(run) <= run
      {
        OthersKeepJob(s, todo[k], t);
        Do(todo[k]);
      }
    }

    // ---------- handlers ----------

    /** POST messages: something to say, a model to say it to, one's own conversation, and no active task
        in it. After an error the task is not there, or it is queued with no job. */
    method SendMessage(blank: bool, configured: bool, owned: bool, conversation: Conversation, actor: Actor, t: Tid) returns (code: nat)
      requires Ok() && t !in s.db.tasks && t !in s.jobs
      modifies this
      ensures Ok() && code in {202, 404, 409, 422, 500, 503}
      ensures (code == 422 <==> blank) && (code == 503 <==> !blank && !configured) && (code == 404 <==> !blank && configured && !owned)
      ensures code == 409 <==> !blank && configured && owned && HasActive(old(s).db, conversation)
      ensures code in {404, 409, 422, 503} ==> s == old(s)
      ensures code == 202 ==> s.jobs == old(s).jobs[t := Job(Content, Fresh, false)]
      ensures code == 202 ==> s.db == old(s).db.(tasks := old(s).db.tasks[t := Task(conversation, actor, Queued)])
      ensures code == 500 ==> s.jobs == old(s).jobs && (s.db == old(s).db || (t in s.abandoned && s.db == old(s).db.(tasks := old(s).db.tasks[t := Task(conversation, actor, Queued)])))
    {
      hide Exec, Inv, HasActive, ApplyAll;
      if blank {
        return 422;
      }
      if !configured {
        return 503;
      }
      if !owned {
        return 404;
      }
      if HasActive(s.db, conversation) {
        return 409;
      }
      ApplyNone(s.db);
      ApplyOne(s.db, AddTask(t, Task(conversation, actor, Queued)));
      HandlerBreaks(s, Send(conversation, actor, t));
      var ok, k, j := Try(Send(conversation, actor, t));
      assert FirstOf([AddTask(t, Task(conversation, actor, Queued))], k) == if k == 0 then [] else [AddTask(t, Task(conversation, actor, Queued))];
      code := if ok then 202 else 500;
    }

    /** POST decision: only for the plan's own actor, while its task waits and no job is listed; an
        approval only before the plan expires. A repeated decision finds the plan no longer pending. After
        an error nothing has changed, or the plan is decided and its task queued with no job. */
    method DecidePlan(p: Pid, actor: Actor, approved: bool) returns (code: nat)
      requires Ok()
      modifies this
      ensures Ok() && code in {202, 404, 409, 500}
      ensures code == 404 <==> !Owned(old(s).db, p, actor)
      ensures code == 409 <==> Owned(old(s).db, p, actor) && !Decidable(old(s), p, approved)
      ensures code == 404 || code == 409 ==> s == old(s)
      ensures code == 202 ==> s == old(s).(db := Decided(old(s), p, actor, approved), jobs := s.jobs)
      ensures code == 202 ==> s.jobs == old(s).jobs[old(s).db.plans[p].task := Job(Decision(p, approved), Fresh, false)]
      ensures code == 500 ==> s.jobs == old(s).jobs && (s.db == old(s).db || (s.db == Decided(old(s), p, actor, approved) && old(s).db.plans[p].task in s.abandoned))
    {
      hide Exec, Inv, ApplyAll;
      if p !in s.db.plans || s.db.plans[p].actor != actor {
        return 404;
      }
      var plan := s.db.plans[p];
      if plan.task !in s.db.tasks || s.db.tasks[plan.task].actor != actor {
        return 404;
      }
      if s.db.tasks[plan.task].status != Waiting || plan.status != Pending || plan.task in s.jobs {
        return 409;
      }
      if approved && plan.expiresAt <= s.now {
        return 409;
      }
      var tx := Decide(p, approved, Approval(actor, s.now));
      ApplyNone(s.db);
      ApplyOne(s.db, tx);
      HandlerBreaks(s, Confirm(p, actor, approved));
      var ok, k, j := Try(Confirm(p, actor, approved));
      assert FirstOf([tx], k) == if k == 0 then [] else [tx];
      code := if ok then 202 else 500;
    }

    /** POST cancel: a listed job is asked to stop; without one the task fails here and now. After an error
        nothing has changed, or the plans have ended, or the task has as well. */
    method CancelTask(t: Tid, actor: Actor) returns (code: nat, status: TaskStatus)
      requires Ok()
      modifies this
      ensures Ok() && code in {200, 404, 500} && (code == 404 <==> !(t in old(s).db.tasks && old(s).db.tasks[t].actor == actor))
      ensures code == 404 ==> s == old(s)
      ensures code != 404 && !old(s).db.tasks[t].status.Active() ==> code == 200 && s == old(s) && status == old(s).db.tasks[t].status
      ensures code == 200 && old(s).db.tasks[t].status.Active() ==> status == Cancelled && CancelDoes(old(s), s, t)
      ensures code == 500 ==> s.jobs == old(s).jobs && CancelFails(old(s).db, s.db, t)
    {
      hide Exec, Inv, ApplyAll;
      if t !in s.db.tasks || s.db.tasks[t].actor != actor {
        return 404, Cancelled;
      }
      if !s.db.tasks[t].status.Active() {
        return 200, s.db.tasks[t].status;
      }
      ApplyNone(s.db);
      ApplyTwo(s.db, EndPlans(t), SetTask(t, Cancelled));
      HandlerBreaks(s, Cancel(t, actor));
      var ok, k, j := Try(Cancel(t, actor));
      ApplyFail(old(s).db, t, Cancelled, k);
      assert t in old(s).jobs ==> FirstOf([], k) == [];
      return if ok then 200 else 500, Cancelled;
    }

    // ---------- the execute node ----------

    ghost predicate JobIs(t: Tid, start: Start, pc: Pc)
      reads this
    {
      t in s.jobs && s.jobs[t].start == start && s.jobs[t].pc == pc
    }

    /** The job's node is over: it goes on to finish its task, or it has ended early. */
    ghost predicate Over(t: Tid, start: Start)
      reads this
    {
      JobIs(t, start, Finishing) || JobIs(t, start, Ended)
    }

    /** The plan has ended, or the store kept the job from saying so, and the task is left without a job. */
    ghost predicate PlanOver(t: Tid, p: Pid)
      reads this
    {
      p in s.db.plans && (!s.db.plans[p].status.Live() || t in s.abandoned)
    }

    /** An await that comes back with a result, or with a cancellation, an error or a timeout that ends
        the job: then its plan has ended too, unknown if a write was under way. */
    method Awaited(t: Tid, p: Pid, ghost start: Start, ghost pc: Pc) returns (on: bool)
      requires Ok() && Leaves(t) && JobIs(t, start, pc) && start.Decision? && start.plan == p
      requires pc.Entering? || pc.Reading? || pc.Issued? || pc.Checking?
      modifies this
      ensures Ok() && old(run) <= run && p in s.db.plans
      ensures on ==> JobIs(t, start, pc) && !s.jobs[t].stopping
      ensures !on ==> JobIs(t, start, Ended) && PlanOver(t, p)
      ensures !on ==> (PastWriting(s.db.plans[p].status) <==> pc.Issued? || pc.Checking?)
    {
      hide Exec, Inv, StepRun, StepFault;
      Await(t);
      Reachable(run);
      JobFacts(s, t, p);
      on := !s.jobs[t].stopping;
      if * {
        if on {
          return;
        }
      }
      var a := if on then Raise(t) else Stop(t);
      ghost var was := s;
      FailDoes(s, t, p, a);
      var ok, k, j := Try(a);
      if !ok {
        FaultDoes(was, t, p, a, k, j);
      }
      on := false;
    }

    /** Identity, plan and expiry; then the second reading; then mark, write, read back. It issues the
        write only for an approved plan, by its own actor, that the second reading matches; and its plan
        has ended when it returns, unless the store failed. `wrote`: it got as far as marking the plan for
        its write. `through`: no await and no use of the store broke off; then the plan's last status is the
        one the inputs call for, with the clock read at `at`. */
    method Execute(t: Tid, p: Pid, approved: bool, actor: Actor, permitted: bool, seen: Reads, reply: Reply, check: Check)
      returns (wrote: bool, ghost through: bool, ghost at: nat)
      requires Ok() && Leaves(t) && JobIs(t, Decision(p, approved), Entering) && p in s.db.plans
      modifies this
      ensures Ok() && Over(t, Decision(p, approved)) && PlanOver(t, p)
      ensures s.db.plans[p] == old(s).db.plans[p].(status := s.db.plans[p].status)
      ensures wrote <==> PastWriting(s.db.plans[p].status)
      ensures wrote ==> approved && permitted && actor == s.db.plans[p].actor && Matches(s.db.plans[p].payload, seen)
      ensures through ==> s.db.plans[p].status == FinalStatus(s.db.plans[p], approved, actor, at, permitted, seen, reply, check)
    {
      hide Exec, Inv, StepRun, StepFault, PastWriting, Matches, Verdict;
      wrote, through, at := false, false, 0;
      ghost var before := run;
      ghost var start := Decision(p, approved);
      var on := Awaited(t, p, start, Entering);
      RunFacts(before, run, p, t);
      if !on {
        return;
      }
      Reachable(run);
      JobFacts(s, t, p);
      EnterDoes(s, t, p, actor);
      at := s.now;
      ghost var was := s;
      var ok, k, j := Try(Enter(t, actor));
      RunFacts(before, run, p, t);
      if !ok {
        FaultDoes(was, t, p, Enter(t, actor), k, j);
        return;
      }
      if !s.jobs[t].pc.Reading? {
        through := true;
        return;
      }
      wrote, through := WritePlan(t, p, permitted, seen, reply, check);
      RunFacts(before, run, p, t);
    }

    method WritePlan(t: Tid, p: Pid, permitted: bool, seen: Reads, reply: Reply, check: Check) returns (wrote: bool, ghost through: bool)
      requires Ok() && Leaves(t) && t in s.jobs && s.jobs[t].pc.Reading? && s.jobs[t].start == Decision(p, true) && p in s.db.plans
      modifies this
      ensures Ok() && old(run) <= run && Over(t, Decision(p, true)) && PlanOver(t, p)
      ensures wrote <==> PastWriting(s.db.plans[p].status)
      ensures wrote ==> permitted && Matches(s.db.plans[p].payload, seen)
      ensures through ==> s.db.plans[p].status == WriteStatus(s.db.plans[p], permitted, seen, reply, check)
    {
      hide Exec, Inv, StepRun, StepFault, PastWriting, Matches, Verdict;
      wrote, through := false, false;
      ghost var before := run;
      ghost var start := Decision(p, true);
      var on := Awaited(t, p, start, s.jobs[t].pc);
      RunFacts(before, run, p, t);
      if !on {
        return;
      }
      var same := Unchanged(s.db.plans[p].payload, seen);
      Reachable(run);
      JobFacts(s, t, p);
      RecheckDoes(s, t, p, permitted, seen);
      ghost var was := s;
      var ok, k, j := Try(Recheck(t, permitted, seen));
      RunFacts(before, run, p, t);
      wrote := permitted && same && (ok || k >= 1);
      if !ok {
        FaultDoes(was, t, p, Recheck(t, permitted, seen), k, j);
        return;
      }
      if !wrote {
        through := true;
        return;
      }
      through := ReadAnswer(t, p, reply, check);
      RunFacts(before, run, p, t);
    }

    /** What came of the write: the reply, the roles read back, and the plan's last status. If nothing broke
        off, that is the verdict on the reply and the roles read back. */
    method ReadAnswer(t: Tid, p: Pid, reply: Reply, check: Check) returns (ghost through: bool)
      requires Ok() && Leaves(t) && JobIs(t, Decision(p, true), Issued) && p in s.db.plans
      modifies this
      ensures Ok() && old(run) <= run && Over(t, Decision(p, true)) && PlanOver(t, p) && PastWriting(s.db.plans[p].status)
      ensures through ==> JobIs(t, Decision(p, true), Finishing) && s.db.plans[p].status == Verdict(reply, check)
    {
      hide Exec, Inv, StepRun, StepFault, PastWriting;
      through := false;
      ghost var start := Decision(p, true);
      var on := Awaited(t, p, start, Issued);
      if !on {
        return;
      }
      on := Answered(t, p, Returned(t, reply));
      if !on || !reply.Accepted? {
        through := on;
        return;
      }
      on := Awaited(t, p, start, Checking);
      if !on {
        return;
      }
      on := Answered(t, p, Verified(t, check));
      through := on;
    }

    /** One answer put on record. */
    method Answered(t: Tid, p: Pid, a: Action) returns (ok: bool)
      requires Ok() && t in s.jobs && s.jobs[t].start == Decision(p, true) && !s.jobs[t].stopping && p in s.db.plans
      requires (a.Returned? && s.jobs[t].pc.Issued?) || (a.Verified? && s.jobs[t].pc.Checking?)
      requires a.t == t
      modifies this
      ensures Ok() && old(run) <= run && p in s.db.plans
      ensures ok && a.Returned? && a.reply.Accepted? ==> JobIs(t, Decision(p, true), Checking)
      ensures !(ok && a.Returned? && a.reply.Accepted?) ==> Over(t, Decision(p, true)) && PlanOver(t, p) && PastWriting(s.db.plans[p].status)
      ensures ok && a.Returned? && a.reply.Error? ==> JobIs(t, Decision(p, true), Finishing)
      ensures ok && a.Returned? && a.reply.Error? ==> s.db.plans[p].status == if a.reply.status in {400, 401, 403, 404} then Refusal else Unknown
      ensures ok && a.Verified? ==> JobIs(t, Decision(p, true), Finishing) && s.db.plans[p].status == if a.check.Confirmed? then Done else Unknown
    {
      hide Exec, Inv, StepRun, StepFault, PastWriting;
      Reachable(run);
      JobFacts(s, t, p);
      AnswerDoes(s, t, p, a);
      ghost var was := s;
      var k, j;
      ok, k, j := Try(a);
      if !ok {
        FaultDoes(was, t, p, a, k, j);
      }
    }
  }

  /** A write is done if it was accepted and its roles were read back; refused if the answer says it was not
      accepted; and unknown in any other case. */
  function Verdict(reply: Reply, check: Check): PlanStatus {
    match reply
    case Error(status) => if status in {400, 401, 403, 404} then Refusal else Unknown
    case Accepted =>
      match check
      case Confirmed => Done
      case Unconfirmed => Unknown
      case CheckError => Unknown
  }

  /** What a decided plan ends as, when nothing breaks off: someone else's is cancelled if it was approved;
      a rejected one stays rejected; then its time, the permission, and the second reading decide. */
  function FinalStatus(plan: Plan, approved: bool, actor: Actor, at: nat, permitted: bool, seen: Reads, reply: Reply, check: Check): PlanStatus {
    if !approved then Rejected
    else if plan.actor != actor then Dropped
    else if plan.expiresAt <= at then Expired
    else WriteStatus(plan, permitted, seen, reply, check)
  }

  function WriteStatus(plan: Plan, permitted: bool, seen: Reads, reply: Reply, check: Check): PlanStatus {
    if !permitted then Dropped
    else if !Matches(plan.payload, seen) then Conflict
    else Verdict(reply, check)
  }

  predicate Owned(db: Db, p: Pid, actor: Actor) {
    p in db.plans && db.plans[p].actor == actor && db.plans[p].task in db.tasks && db.tasks[db.plans[p].task].actor == actor
  }

  /** Still pending for a task that waits with no job listed; an approval must come before expiry. */
  predicate Decidable(s: State, p: Pid, approved: bool)
    requires p in s.db.plans && s.db.plans[p].task in s.db.tasks
  {
    var plan := s.db.plans[p];
    s.db.tasks[plan.task].status.Waiting? && plan.status.Pending? && plan.task !in s.jobs && (approved ==> s.now < plan.expiresAt)
  }

  /** The plan is decided, its task queued again, and the approval on record. */
  function Decided(s: State, p: Pid, actor: Actor, approved: bool): Db
    requires p in s.db.plans && s.db.plans[p].task in s.db.tasks
  {
    var t := s.db.plans[p].task;
    s.db.(plans := s.db.plans[p := s.db.plans[p].(status := if approved then Approved else Rejected)],
          tasks := s.db.tasks[t := s.db.tasks[t].(status := Queued)],
          approvals := if approved then s.db.approvals[p := Approval(actor, s.now)] else s.db.approvals)
  }

  predicate CancelFails(db: Db, db': Db, t: Tid)
    requires t in db.tasks
  {
    var ended := db.(plans := EndPlansOf(db.plans, t));
    db' == db || db' == ended || db' == ended.(tasks := ended.tasks[t := ended.tasks[t].(status := Cancelled)])
  }

  predicate CancelDoes(s: State, s': State, t: Tid)
    requires t in s.db.tasks
  {
    if t in s.jobs then s' == if s.jobs[t].pc.Ended? then s else s.(jobs := s.jobs[t := s.jobs[t].(stopping := true)])
    else s' == s.(db := s.db.(plans := EndPlansOf(s.db.plans, t), tasks := s.db.tasks[t := s.db.tasks[t].(status := Cancelled)]))
  }

  // ---------- what the job's own steps do to its plan ----------

  /** Where a decided job is says what its plan's status is. */
  lemma JobFacts(s: State, t: Tid, p: Pid)
    requires Inv(s) && t in s.jobs && s.jobs[t].start.Decision? && s.jobs[t].start.plan == p
    requires s.jobs[t].pc.Entering? || s.jobs[t].pc.Reading? || s.jobs[t].pc.Issued? || s.jobs[t].pc.Checking?
    ensures IsOf(s.db, p, t) && t in s.db.tasks
    ensures s.jobs[t].pc.Entering? ==> s.db.plans[p].status == if s.jobs[t].start.approved then Approved else Rejected
    ensures s.jobs[t].pc.Reading? ==> s.jobs[t].start.approved && s.db.plans[p].status == Approved
    ensures s.jobs[t].pc.Issued? || s.jobs[t].pc.Checking? ==> s.db.plans[p].status == Executing
    ensures PastWriting(s.db.plans[p].status) <==> s.jobs[t].pc.Issued? || s.jobs[t].pc.Checking?
  {
    hide Inv, Base;
    TaskFacts(s, t);
  }

  lemma FailDoes(s: State, t: Tid, p: Pid, a: Action)
    requires t in s.jobs && IsOf(s.db, p, t) && Started(s.jobs[t]) && (a == if s.jobs[t].stopping then Stop(t) else Raise(t))
    ensures var s' := StepRun(s, a);
      && t in s'.jobs && s'.jobs[t].start == s.jobs[t].start && s'.jobs[t].pc == Ended
      && IsOf(s'.db, p, t) && s'.db.plans[p].status == EndedStatus(s.db.plans[p].status)
  {
    hide ApplyAll;
    ApplyTwo(s.db, EndPlans(t), SetTask(t, if a.Stop? then Cancelled else Failed));
  }

  lemma EnterDoes(s: State, t: Tid, p: Pid, actor: Actor)
    requires At(s, t, Entering) && s.jobs[t].start.Decision? && s.jobs[t].start.plan == p && IsOf(s.db, p, t)
    requires s.db.plans[p].status == if s.jobs[t].start.approved then Approved else Rejected
    ensures var s' := StepRun(s, Enter(t, actor));
      && t in s'.jobs && s'.jobs[t].start == s.jobs[t].start && IsOf(s'.db, p, t)
      && (if s'.jobs[t].pc.Reading? then s.jobs[t].start.approved && actor == s.db.plans[p].actor && s.now < s.db.plans[p].expiresAt
          else (s'.jobs[t].pc.Finishing? || s'.jobs[t].pc.Ended?) && !s'.db.plans[p].status.Live() && !PastWriting(s'.db.plans[p].status))
      && (!s'.jobs[t].pc.Reading? ==> s'.db.plans[p].status == if !s.jobs[t].start.approved then Rejected else if s.db.plans[p].actor != actor then Dropped else Expired)
      && (s'.jobs[t].pc.Reading? <==> s.jobs[t].start.approved && actor == s.db.plans[p].actor && s.now < s.db.plans[p].expiresAt)
  {
    hide ApplyAll;
    ApplyNone(s.db);
    ApplyOne(s.db, SetPlan(p, Rejected));
    ApplyOne(s.db, SetPlan(p, Expired));
    ApplyTwo(s.db, EndPlans(t), SetTask(t, Failed));
  }

  lemma RecheckDoes(s: State, t: Tid, p: Pid, permitted: bool, seen: Reads)
    requires t in s.jobs && !s.jobs[t].stopping && s.jobs[t].pc.Reading? && s.jobs[t].start.Decision? && s.jobs[t].start.plan == p
    requires IsOf(s.db, p, t) && s.db.plans[p].status.Approved?
    ensures var s' := StepRun(s, Recheck(t, permitted, seen));
      && t in s'.jobs && s'.jobs[t].start == s.jobs[t].start && IsOf(s'.db, p, t)
      && (if permitted && Matches(s.db.plans[p].payload, seen) then s'.jobs[t].pc == Issued
          else (s'.jobs[t].pc.Finishing? || s'.jobs[t].pc.Ended?) && !s'.db.plans[p].status.Live() && !PastWriting(s'.db.plans[p].status))
      && (!permitted || !Matches(s.db.plans[p].payload, seen) ==> s'.db.plans[p].status == if !permitted then Dropped else Conflict)
  {
    hide ApplyAll, Matches, AddedIds;
    var payload := s.db.plans[p].payload;
    ApplyOne(s.db, SetPlan(p, Conflict));
    ApplyTwo(s.db, EndPlans(t), SetTask(t, Failed));
    ApplyTwo(s.db, SetPlan(p, Executing), Issue(Write(p, payload.employee.id, AddedIds(payload), s.jobs[t].pc.enteredAt, seen)));
  }

  lemma AnswerDoes(s: State, t: Tid, p: Pid, a: Action)
    requires t in s.jobs && s.jobs[t].start.Decision? && s.jobs[t].start.plan == p && IsOf(s.db, p, t)
    requires (a.Returned? && At(s, t, Issued)) || (a.Verified? && At(s, t, Checking))
    requires a.t == t
    ensures var s' := StepRun(s, a);
      && t in s'.jobs && s'.jobs[t].start == s.jobs[t].start && IsOf(s'.db, p, t)
      && (if a.Returned? && a.reply.Accepted? then s'.jobs[t].pc == Checking
          else s'.jobs[t].pc == Finishing && PastWriting(s'.db.plans[p].status) && !s'.db.plans[p].status.Live())
      && (a.Returned? && a.reply.Error? ==> s'.db.plans[p].status == if a.reply.status in {400, 401, 403, 404} then Refusal else Unknown)
      && (a.Verified? ==> s'.db.plans[p].status == if a.check.Confirmed? then Done else Unknown)
  {
    hide ApplyAll;
    ApplyNone(s.db);
    ApplyOne(s.db, SetPlan(p, Refusal));
    ApplyOne(s.db, SetPlan(p, Unknown));
    ApplyOne(s.db, SetPlan(p, Done));
  }

  /** The job of t carries out the decision on plan p. */
  predicate Decides(s: State, t: Tid, p: Pid) {
    t in s.jobs && s.jobs[t].start.Decision? && s.jobs[t].start.plan == p && IsOf(s.db, p, t)
  }

  /** The section that marks the plan for its write. */
  predicate MarksWrite(s: State, a: Action) {
    a.Recheck? && a.t in s.jobs && s.jobs[a.t].start.Decision? && s.jobs[a.t].start.plan in s.db.plans
      && a.permitted && Matches(s.db.plans[s.jobs[a.t].start.plan].payload, a.seen)
  }

  /** What the first k transactions of a decided job's section, other than fail(), do to its plan. */
  lemma SectionPlan(s: State, t: Tid, p: Pid, a: Action, k: nat)
    requires Decides(s, t, p) && (a.Enter? || a.Recheck? || a.Returned? || a.Verified?) && a.t == t
    requires Inv(s) && Stores(s, a) && Caught(s, a)
    requires a.Enter? ==> s.db.plans[p].status.Approved? || s.db.plans[p].status.Rejected?
    ensures var db := ApplyAll(s.db, FirstOf(SectionOf(s, a).value.txs, k));
      IsOf(db, p, t) && (PastWriting(db.plans[p].status) <==> PastWriting(s.db.plans[p].status) || (MarksWrite(s, a) && k >= 1))
  {
    hide Inv, Base, ApplyAll, Matches, AddedIds, Completion, HasActive;
    TaskFacts(s, t);
    AtMostTwo(s, a);
    var txs := SectionOf(s, a).value.txs;
    FirstTwo(txs, k);
    ApplyNone(s.db);
    if |txs| >= 1 { ApplyOne(s.db, txs[0]); }
    if |txs| == 2 { ApplyTwo(s.db, txs[0], txs[1]); }
  }

  /** fail() breaks off. */
  lemma FailingBreaks(s: State, t: Tid, p: Pid, a: Action, k: nat, j: nat)
    requires Inv(s) && Stores(s, a) && OfJob(a) && !Caught(s, a) && a.t == t && IsOf(s.db, p, t)
    ensures var db := ApplyAll(s.db, TxsUntil(s, a, k, j));
      && IsOf(db, p, t) && (k >= 1 ==> !db.plans[p].status.Live())
      && (PastWriting(db.plans[p].status) <==> PastWriting(s.db.plans[p].status))
    ensures !MarksWrite(s, a)
  {
    FailingSections(s, a);
    JobSections(s, a);
    hide Inv, ApplyAll, SectionOf, MarksWrite, Completion;
    var txs := SectionOf(s, a).value.txs;
    assert FirstOf(txs, k) + [] == FirstOf(txs, k);
    FailEnds(s.db, t, p, if txs == FailTxs(t, Failed) then Failed else Cancelled, k);
  }

  /** Another section of a decided job breaks off, and fail() may as well. */
  lemma CaughtBreaks(s: State, t: Tid, p: Pid, a: Action, k: nat, j: nat)
    requires Decides(s, t, p) && (a.Enter? || a.Recheck? || a.Returned? || a.Verified?) && a.t == t
    requires Inv(s) && Stores(s, a) && Caught(s, a)
    requires a.Enter? ==> s.db.plans[p].status.Approved? || s.db.plans[p].status.Rejected?
    ensures var db := ApplyAll(s.db, TxsUntil(s, a, k, j));
      && IsOf(db, p, t) && (j >= 1 ==> !db.plans[p].status.Live())
      && (PastWriting(db.plans[p].status) <==> PastWriting(s.db.plans[p].status) || (MarksWrite(s, a) && k >= 1))
  {
    SectionPlan(s, t, p, a, k);
    hide Inv, ApplyAll, SectionOf, MarksWrite, FirstOf, Caught, PastWriting, IsOf, FailTxs;
    var txs := SectionOf(s, a).value.txs;
    ApplyMore(s.db, FirstOf(txs, k), FirstOf(FailTxs(t, Failed), j));
    FailEnds(ApplyAll(s.db, FirstOf(txs, k)), t, p, Failed, j);
  }

  /** The store breaks off a section of a decided job: the job has ended, its plan too unless the task is
      left without a job; and the plan is past its write if it was before, or has just been marked for it. */
  lemma FaultDoes(s: State, t: Tid, p: Pid, a: Action, k: nat, j: nat)
    requires Decides(s, t, p) && (a.Stop? || a.Raise? || a.Enter? || a.Recheck? || a.Returned? || a.Verified?) && a.t == t
    requires Inv(s) && Stores(s, a)
    requires a.Enter? ==> s.db.plans[p].status.Approved? || s.db.plans[p].status.Rejected?
    ensures var s' := StepFault(s, a, k, j);
      && Decides(s', t, p) && s'.jobs[t].start == s.jobs[t].start && s'.jobs[t].pc == Ended
      && (!s'.db.plans[p].status.Live() || t in s'.abandoned)
      && (PastWriting(s'.db.plans[p].status) <==> PastWriting(s.db.plans[p].status) || (MarksWrite(s, a) && k >= 1))
  {
    JobSections(s, a);
    if Caught(s, a) {
      PlainSections(s, a);
      CaughtBreaks(s, t, p, a, k, j);
    } else {
      FailingBreaks(s, t, p, a, k, j);
    }
    hide Inv, ApplyAll, SectionOf, MarksWrite, TxsUntil, PastWriting, IsFail, Completion;
  }

  lemma PlainSections(s: State, a: Action)
    requires Stores(s, a) && OfJob(a) && Caught(s, a)
    ensures !a.Stop? && !a.Raise?
  {
  }

  lemma FailingSections(s: State, a: Action)
    requires Stores(s, a) && OfJob(a) && !Caught(s, a)
    ensures !MarksWrite(s, a)
  {
    hide Matches, AddedIds;
  }

  /** A handler that the store breaks off has committed the first k of its transactions, and nothing else. */
  lemma HandlerBreaks(s: State, a: Action)
    requires Stores(s, a) && OfHandler(a)
    ensures forall k, j :: StepFault(s, a, k, j).db == ApplyAll(s.db, FirstOf(SectionOf(s, a).value.txs, k)) && StepFault(s, a, k, j).jobs == s.jobs
  {
    hide SectionOf, ApplyAll;
    forall k: nat, j: nat ensures TxsUntil(s, a, k, j) == FirstOf(SectionOf(s, a).value.txs, k) {
    }
  }

  lemma RunFacts(before: seq<Event>, run: seq<Event>, p: Pid, t: Tid)
    requires before <= run && p in Exec(before).db.plans
    ensures p in Exec(run).db.plans && Exec(run).db.plans[p] == Exec(before).db.plans[p].(status := Exec(run).db.plans[p].status)
  {
    hide Exec;
    assert run == before + run[|before|..];
    RunIsLater(before, run[|before|..], p, t);
  }

  lemma Starts()
    ensures Exec([]) == INIT
  {
  }
}
