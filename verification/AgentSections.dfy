/** Every section between two awaits keeps the invariant. */
module AgentSections {
  import opened AgentPlanning
  import opened AgentStore
  import opened AgentProtocol
  import opened AgentTransactions

  /** Only task t, its plans and its job are touched. */
  ghost predicate SameElsewhere(db: Db, db': Db, t: Tid) {
    && db.writes <= db'.writes
    && (forall u :: u != t && u in db'.tasks ==> u in db.tasks && db'.tasks[u] == db.tasks[u])
    && (forall p, u :: u != t && (IsOf(db, p, u) || IsOf(db', p, u)) ==> IsOf(db, p, u) && IsOf(db', p, u) && db'.plans[p] == db.plans[p])
  }

  /** What a transaction works on. */
  predicate Concerns(db: Db, tx: Tx, t: Tid) {
    match tx
    case AddTask(u, _) => u == t
    case SetTask(u, _) => u == t
    case EndPlans(u) => u == t
    case AddPlan(p, plan) => plan.task == t && p !in db.plans
    case SetPlan(p, _) => IsOf(db, p, t)
    case Decide(p, _, _) => IsOf(db, p, t)
    case Issue(_) => true
  }

  lemma TxElsewhere(db: Db, tx: Tx, t: Tid)
    requires Concerns(db, tx, t)
    ensures SameElsewhere(db, Apply(db, tx), t)
  {
  }

  lemma ElsewhereTwice(db: Db, mid: Db, db': Db, t: Tid)
    requires SameElsewhere(db, mid, t) && SameElsewhere(mid, db', t)
    ensures SameElsewhere(db, db', t)
  {
  }

  lemma SectionKeepsInv(s: State, s': State, t: Tid)
    requires Inv(s) && Base(s'.db, s'.torn) && s' == s.(db := s'.db, jobs := s'.jobs, torn := s'.torn, abandoned := s'.abandoned)
    requires SameElsewhere(s.db, s'.db, t) && s.abandoned <= s'.abandoned <= s.abandoned + {t}
    requires t in s'.abandoned ==> t in s'.db.tasks
    requires forall u :: u != t ==> (u in s'.jobs <==> u in s.jobs) && (u in s.jobs ==> s'.jobs[u] == s.jobs[u])
    requires forall u :: u in s.db.tasks ==> u in s'.db.tasks
    requires t in s'.jobs ==> t in s'.db.tasks
    requires t in s'.db.tasks ==> TaskOk(s', t)
    ensures Inv(s')
  {
    hide Base, SameElsewhere;
    forall u | u in s'.db.tasks ensures TaskOk(s', u) {
      if u != t { TaskElsewhere(s, s', t, u); }
    }
  }

  lemma TaskElsewhere(s: State, s': State, t: Tid, u: Tid)
    requires u != t && u in s'.db.tasks && (u in s.db.tasks ==> TaskOk(s, u))
    requires SameElsewhere(s.db, s'.db, t) && s.abandoned <= s'.abandoned <= s.abandoned + {t}
    requires (u in s'.jobs <==> u in s.jobs) && (u in s.jobs ==> s'.jobs[u] == s.jobs[u])
    ensures TaskOk(s', u)
  {
    hide HasWrite;
    if u in s.jobs && s.jobs[u].start.Decision? { WritesStay(s.db, s'.db, s.jobs[u].start.plan); }
  }

  lemma ApplyNone(db: Db)
    ensures ApplyAll(db, []) == db
  {
  }

  lemma ApplyOne(db: Db, tx: Tx)
    ensures ApplyAll(db, [tx]) == Apply(db, tx)
  {
    assert [tx][1..] == [];
    ApplyNone(Apply(db, tx));
  }

  lemma ApplyTwo(db: Db, tx: Tx, next: Tx)
    ensures ApplyAll(db, [tx, next]) == Apply(Apply(db, tx), next)
  {
    assert [tx, next][1..] == [next];
    ApplyOne(Apply(db, tx), next);
  }

  lemma TaskFacts(s: State, t: Tid)
    requires Inv(s) && (t in s.jobs || t in s.db.tasks)
    ensures Base(s.db, s.torn) && TaskOk(s, t) && RestOk(s.db, s.torn, t)
  {
  }

  /** fail() by the job itself. */
  lemma FailingKeepsInv(s: State, t: Tid, status: TaskStatus)
    requires Inv(s) && t in s.jobs && Started(s.jobs[t]) && (status.Failed? || status.Cancelled?)
    ensures Base(Apply(s.db, EndPlans(t)), s.torn)
    ensures Inv(s.(db := ApplyAll(s.db, FailTxs(t, status)), jobs := Move(s, t, Ended)))
  {
    hide Inv, Base, SameElsewhere, ApplyAll;
    TaskFacts(s, t);
    FailTxsKeepBase(s.db, s.torn, s.torn, t, status);
    var db1 := Apply(s.db, EndPlans(t));
    var db2 := Apply(db1, SetTask(t, status));
    ApplyTwo(s.db, EndPlans(t), SetTask(t, status));
    TxElsewhere(s.db, EndPlans(t), t);
    TxElsewhere(db1, SetTask(t, status), t);
    ElsewhereTwice(s.db, db1, db2, t);
    SectionKeepsInv(s, s.(db := db2, jobs := Move(s, t, Ended)), t);
  }

  lemma FailTxsKeepBase(db: Db, torn: set<Tid>, torn': set<Tid>, t: Tid, status: TaskStatus)
    requires Base(db, torn) && t in db.tasks && (status.Failed? || status.Cancelled?)
    requires torn' == if db.tasks[t].status.Waiting? then torn + {t} else torn
    ensures Base(Apply(db, EndPlans(t)), torn')
    ensures Base(Apply(Apply(db, EndPlans(t)), SetTask(t, status)), torn)
  {
    hide Base;
    EndPlansKeepsBase(db, torn, torn', t);
    var db1 := Apply(db, EndPlans(t));
    assert forall p :: IsOf(db1, p, t) ==> !db1.plans[p].status.Live();
    assert forall p :: IsOf(WithTask(db1, t, status), p, t) <==> IsOf(db1, p, t);
    SetTaskKeepsBase(db1, torn', t, status);
    NotTornAfter(WithTask(db1, t, status), torn, torn', t);
  }

  lemma NotTornAfter(db: Db, torn: set<Tid>, torn': set<Tid>, t: Tid)
    requires Base(db, torn') && torn <= torn' <= torn + {t} && t in db.tasks && !db.tasks[t].status.Waiting?
    ensures Base(db, torn)
  {
    hide WritesOk, PlansOk, OneActive;
    forall u | u in db.tasks ensures RestOk(db, torn, u) { assert RestOk(db, torn', u); }
  }

  /** One transaction that sets the task's status, and the job moves. */
  lemma SetTaskSection(s: State, t: Tid, status: TaskStatus, pc: Pc)
    requires Inv(s) && t in s.jobs && t in s.db.tasks
    requires status.Active() ==> s.db.tasks[t].status.Active()
    requires RestOk(WithTask(s.db, t, status), s.torn, t)
    requires TaskOk(s.(db := WithTask(s.db, t, status), jobs := Move(s, t, pc)), t)
    ensures Inv(s.(db := ApplyAll(s.db, [SetTask(t, status)]), jobs := Move(s, t, pc)))
  {
    hide Inv, Base, SameElsewhere, ApplyAll, TaskOk, RestOk;
    TaskFacts(s, t);
    SetTaskKeepsBase(s.db, s.torn, t, status);
    ApplyOne(s.db, SetTask(t, status));
    TxElsewhere(s.db, SetTask(t, status), t);
    SectionKeepsInv(s, s.(db := WithTask(s.db, t, status), jobs := Move(s, t, pc)), t);
  }

  /** One transaction that sets the plan's status, and the job moves. */
  lemma SetPlanSection(s: State, t: Tid, p: Pid, status: PlanStatus, pc: Pc)
    requires Inv(s) && t in s.jobs && t in s.db.tasks && IsOf(s.db, p, t) && s.db.tasks[t].status.Running?
    requires PastWriting(s.db.plans[p].status) ==> PastWriting(status)
    requires !status.Approved? && (status.Done? ==> HasWrite(s.db, p))
    requires TaskOk(s.(db := WithPlan(s.db, p, status), jobs := Move(s, t, pc)), t)
    ensures Inv(s.(db := ApplyAll(s.db, [SetPlan(p, status)]), jobs := Move(s, t, pc)))
  {
    hide Inv, Base, SameElsewhere, ApplyAll, TaskOk;
    TaskFacts(s, t);
    SetPlanKeepsBase(s.db, s.torn, p, status);
    ApplyOne(s.db, SetPlan(p, status));
    TxElsewhere(s.db, SetPlan(p, status), t);
    SectionKeepsInv(s, s.(db := WithPlan(s.db, p, status), jobs := Move(s, t, pc)), t);
  }

  /** No transaction; the job of t changes. */
  lemma JobSection(s: State, t: Tid, jobs: map<Tid, Job>, abandoned: set<Tid>)
    requires Inv(s) && t in s.db.tasks && s.abandoned <= abandoned <= s.abandoned + {t}
    requires forall u :: u != t ==> (u in jobs <==> u in s.jobs) && (u in s.jobs ==> jobs[u] == s.jobs[u])
    requires TaskOk(s.(jobs := jobs, abandoned := abandoned), t)
    ensures Inv(s.(db := ApplyAll(s.db, []), jobs := jobs, abandoned := abandoned))
  {
    hide Inv, Base, ApplyAll, TaskOk;
    TaskFacts(s, t);
    ApplyNone(s.db);
    SectionKeepsInv(s, s.(jobs := jobs, abandoned := abandoned), t);
  }

  /** At most one plan belongs to a task. */
  lemma OnlyPlan(db: Db, torn: set<Tid>, p: Pid, q: Pid, t: Tid)
    requires Base(db, torn) && IsOf(db, p, t) && IsOf(db, q, t)
    ensures p == q
  {
  }

  lemma SendKeepsInv(s: State, conversation: Conversation, actor: Actor, t: Tid)
    requires Inv(s) && t !in s.db.tasks && t !in s.jobs && !HasActive(s.db, conversation)
    ensures var task := Task(conversation, actor, Queued);
      Inv(s.(db := ApplyAll(s.db, [AddTask(t, task)]), jobs := s.jobs[t := Job(Content, Fresh, false)]))
  {
    hide Base, SameElsewhere, ApplyAll, HasActive;
    var task := Task(conversation, actor, Queued);
    var s' := s.(db := Apply(s.db, AddTask(t, task)), jobs := s.jobs[t := Job(Content, Fresh, false)]);
    ApplyOne(s.db, AddTask(t, task));
    AddTaskKeepsBase(s.db, s.torn, t, task);
    TxElsewhere(s.db, AddTask(t, task), t);
    PlansHaveTasks(s.db, s.torn, t);
    assert forall p :: !IsOf(s'.db, p, t) by { assert forall p :: IsOf(s'.db, p, t) <==> IsOf(s.db, p, t); }
    hide Inv;
    SectionKeepsInv(s, s', t);
  }

  lemma PlansHaveTasks(db: Db, torn: set<Tid>, t: Tid)
    requires Base(db, torn) && t !in db.tasks
    ensures forall p :: !IsOf(db, p, t)
  {
    forall p ensures !IsOf(db, p, t) { if p in db.plans { assert PlanOk(db, p); } }
  }

  lemma ConfirmKeepsInv(s: State, p: Pid, actor: Actor, approved: bool)
    requires Inv(s) && DecisionSection(s, p, actor, approved).Some?
    ensures Inv(StepRun(s, Confirm(p, actor, approved)))
  {
    hide Inv, Base, SameElsewhere, ApplyAll;
    var t := s.db.plans[p].task;
    var tx := Decide(p, approved, Approval(actor, s.now));
    var s' := s.(db := Apply(s.db, tx), jobs := s.jobs[t := Job(Decision(p, approved), Fresh, false)]);
    TaskFacts(s, t);
    ApplyOne(s.db, tx);
    DecideKeepsBase(s.db, s.torn, p, approved, Approval(actor, s.now));
    TxElsewhere(s.db, tx, t);
    SectionKeepsInv(s, s', t);
  }

  lemma CancelKeepsInv(s: State, t: Tid, actor: Actor)
    requires Inv(s) && CancelSection(s, t, actor).Some?
    ensures Inv(StepRun(s, Cancel(t, actor)))
  {
    hide Inv, Base, SameElsewhere, ApplyAll;
    TaskFacts(s, t);
    if t in s.jobs {
      JobSection(s, t, CancelSection(s, t, actor).value.jobs, s.abandoned);
    } else {
      var db1 := Apply(s.db, EndPlans(t));
      var db2 := Apply(db1, SetTask(t, Cancelled));
      FailTxsKeepBase(s.db, s.torn, if s.db.tasks[t].status.Waiting? then s.torn + {t} else s.torn, t, Cancelled);
      ApplyTwo(s.db, EndPlans(t), SetTask(t, Cancelled));
      TxElsewhere(s.db, EndPlans(t), t);
      TxElsewhere(db1, SetTask(t, Cancelled), t);
      ElsewhereTwice(s.db, db1, db2, t);
      SectionKeepsInv(s, s.(db := db2), t);
    }
  }

  lemma ShutdownKeepsInv(s: State)
    requires Inv(s)
    ensures Inv(StepRun(s, Shutdown))
  {
    hide Base, ApplyAll;
    ApplyNone(s.db);
    var s' := s.(jobs := StopAll(s.jobs));
    forall t | t in s'.db.tasks ensures TaskOk(s', t) { assert TaskOk(s, t); }
  }

  lemma BeginKeepsInv(s: State, t: Tid)
    requires Inv(s) && BeginSection(s, t).Some?
    ensures Inv(StepRun(s, Begin(t)))
  {
    hide Inv, Base, ApplyAll;
    TaskFacts(s, t);
    var db' := WithTask(s.db, t, Running);
    assert forall p :: IsOf(db', p, t) <==> IsOf(s.db, p, t);
    SetTaskSection(s, t, Running, if s.jobs[t].start.Content? then Thinking else Resuming);
  }

  lemma VanishKeepsInv(s: State, t: Tid)
    requires Inv(s) && SectionOf(s, Vanish(t)).Some?
    ensures Inv(StepRun(s, Vanish(t)))
  {
    hide Inv, Base, ApplyAll;
    TaskFacts(s, t);
    JobSection(s, t, Move(s, t, Ended), s.abandoned + {t});
  }

  lemma WaitKeepsInv(s: State, t: Tid)
    requires Inv(s) && SectionOf(s, NoSlot(t)).Some?
    ensures Inv(StepRun(s, NoSlot(t)))
  {
    hide Inv, Base, ApplyAll;
    TaskFacts(s, t);
    JobSection(s, t, Move(s, t, WaitingSlot), s.abandoned);
  }

  lemma ReapKeepsInv(s: State, t: Tid)
    requires Inv(s) && SectionOf(s, Reap(t)).Some?
    ensures Inv(StepRun(s, Reap(t)))
  {
    hide Inv, Base, ApplyAll;
    TaskFacts(s, t);
    JobSection(s, t, s.jobs - {t}, s.abandoned);
  }

  lemma PreviewKeepsInv(s: State, t: Tid, p: Pid, payload: Payload, actor: Actor, ttl: nat)
    requires Inv(s) && PreviewSection(s, t, p, payload, actor, ttl).Some?
    ensures Inv(StepRun(s, Preview(t, p, payload, actor, ttl)))
  {
    hide Inv, Base, SameElsewhere, ApplyAll, Sound;
    TaskFacts(s, t);
    assert !IsOf(s.db, p, t);
    var plan := Plan(t, actor, payload, Pending, s.now + ttl);
    var s' := s.(db := Apply(s.db, AddPlan(p, plan)), jobs := Move(s, t, Paused(p)));
    ApplyOne(s.db, AddPlan(p, plan));
    AddPlanKeepsBase(s.db, s.torn, p, plan);
    TxElsewhere(s.db, AddPlan(p, plan), t);
    SectionKeepsInv(s, s', t);
  }

  lemma InterruptKeepsInv(s: State, t: Tid)
    requires Inv(s) && SectionOf(s, Interrupt(t)).Some?
    ensures Inv(StepRun(s, Interrupt(t)))
  {
    hide Inv, Base, ApplyAll;
    TaskFacts(s, t);
    var p := s.jobs[t].pc.plan;
    var db' := WithTask(s.db, t, Waiting);
    forall q | IsOf(db', q, t) ensures db'.plans[q].status.Pending? { OnlyPlan(s.db, s.torn, q, p, t) by { assert IsOf(s.db, q, t); } }
    assert IsOf(db', p, t);
    SetTaskSection(s, t, Waiting, Ended);
  }

  /** A task that ran to its end has no live plan. */
  lemma CompleteKeepsInv(s: State, t: Tid)
    requires Inv(s) && (At(s, t, Thinking) || At(s, t, Finishing))
    ensures Inv(s.(db := ApplyAll(s.db, [SetTask(t, Completion(s.db.plans, t))]), jobs := Move(s, t, Ended)))
  {
    hide Inv, Base, ApplyAll, Completion;
    TaskFacts(s, t);
    var status := Completion(s.db.plans, t);
    CompletionEnds(s.db.plans, t);
    var db' := WithTask(s.db, t, status);
    forall q | IsOf(db', q, t) ensures !db'.plans[q].status.Live() && (status.Succeeded? ==> db'.plans[q].status.Done?) {
      assert IsOf(s.db, q, t);
      if s.jobs[t].pc.Finishing? { OnlyPlan(s.db, s.torn, q, s.jobs[t].start.plan, t); }
    }
    SetTaskSection(s, t, status, Ended);
  }

  lemma CompletionEnds(plans: Plans, t: Tid)
    ensures !Completion(plans, t).Active()
    ensures Completion(plans, t).Succeeded? ==>
      forall p :: p in plans && plans[p].task == t ==> plans[p].status.Live() || plans[p].status.Done? || plans[p].status.Dropped?
  {
  }

  lemma ResumeKeepsInv(s: State, t: Tid, checkpoint: Pid)
    requires Inv(s) && ResumeSection(s, t, checkpoint).Some?
    ensures Inv(StepRun(s, Resume(t, checkpoint)))
  {
    hide Inv, Base, ApplyAll;
    TaskFacts(s, t);
    if checkpoint != s.jobs[t].start.plan {
      FailingKeepsInv(s, t, Failed);
    } else {
      JobSection(s, t, Move(s, t, Entering), s.abandoned);
    }
  }

  lemma EnterKeepsInv(s: State, t: Tid, actor: Actor)
    requires Inv(s) && EnterSection(s, t, actor).Some?
    ensures Inv(StepRun(s, Enter(t, actor)))
  {
    hide Inv, Base, ApplyAll;
    TaskFacts(s, t);
    var p, approved := s.jobs[t].start.plan, s.jobs[t].start.approved;
    var plan := s.db.plans[p];
    if plan.actor != actor {
      FailingKeepsInv(s, t, Failed);
    } else if !approved {
      SetPlanSection(s, t, p, Rejected, Finishing);
    } else if plan.expiresAt <= s.now {
      SetPlanSection(s, t, p, Expired, Finishing);
    } else {
      JobSection(s, t, Move(s, t, Reading(s.now)), s.abandoned);
    }
  }

  lemma AfterWriteKeepsInv(s: State, t: Tid, status: PlanStatus)
    requires Inv(s) && (At(s, t, Issued) || At(s, t, Checking)) && (status.Done? || status.Refusal? || status.Unknown?)
    requires s.jobs[t].start.Decision?
    ensures Inv(s.(db := ApplyAll(s.db, [SetPlan(s.jobs[t].start.plan, status)]), jobs := Move(s, t, Finishing)))
  {
    hide Inv, Base, ApplyAll;
    TaskFacts(s, t);
    SetPlanSection(s, t, s.jobs[t].start.plan, status, Finishing);
  }

  lemma ReturnedKeepsInv(s: State, t: Tid, reply: Reply)
    requires Inv(s) && ReturnedSection(s, t, reply).Some?
    ensures Inv(StepRun(s, Returned(t, reply)))
  {
    hide Inv, Base, ApplyAll;
    TaskFacts(s, t);
    if reply.Accepted? {
      JobSection(s, t, Move(s, t, Checking), s.abandoned);
    } else {
      AfterWriteKeepsInv(s, t, if reply.status in {400, 401, 403, 404} then Refusal else Unknown);
    }
  }

  lemma RecheckKeepsInv(s: State, t: Tid, permitted: bool, seen: Reads)
    requires Inv(s) && RecheckSection(s, t, permitted, seen).Some?
    ensures Inv(StepRun(s, Recheck(t, permitted, seen)))
    ensures permitted && Matches(s.db.plans[s.jobs[t].start.plan].payload, seen) ==>
      Base(Apply(s.db, SetPlan(s.jobs[t].start.plan, Executing)), s.torn)
  {
    hide Inv, Base, ApplyAll, Matches;
    TaskFacts(s, t);
    var p := s.jobs[t].start.plan;
    var payload := s.db.plans[p].payload;
    if !permitted {
      FailingKeepsInv(s, t, Failed);
    } else if !Matches(payload, seen) {
      SetPlanSection(s, t, p, Conflict, Finishing);
    } else {
      IssueKeepsInv(s, t, seen);
    }
  }

  /** The one write of a plan: it was approved until now, so none went out before. */
  lemma IssueKeepsInv(s: State, t: Tid, seen: Reads)
    requires Inv(s) && t in s.jobs && s.jobs[t].pc.Reading? && s.jobs[t].start.Decision? && s.jobs[t].start.plan in s.db.plans
    requires Matches(s.db.plans[s.jobs[t].start.plan].payload, seen)
    ensures var p := s.jobs[t].start.plan;
      var payload := s.db.plans[p].payload;
      var txs := [SetPlan(p, Executing), Issue(Write(p, payload.employee.id, AddedIds(payload), s.jobs[t].pc.enteredAt, seen))];
      Base(Apply(s.db, SetPlan(p, Executing)), s.torn) && Inv(s.(db := ApplyAll(s.db, txs), jobs := Move(s, t, Issued)))
  {
    hide Inv, Base, SameElsewhere, ApplyAll, Matches, Sound, AddedIds;
    TaskFacts(s, t);
    var p := s.jobs[t].start.plan;
    var payload := s.db.plans[p].payload;
    var w := Write(p, payload.employee.id, AddedIds(payload), s.jobs[t].pc.enteredAt, seen);
    var db1 := Apply(s.db, SetPlan(p, Executing));
    PlanFacts(s.db, s.torn, p);
    SetPlanKeepsBase(s.db, s.torn, p, Executing);
    NoWriteYet(s.db, s.torn, p);
    IssueKeepsBase(db1, s.torn, w);
    ApplyTwo(s.db, SetPlan(p, Executing), Issue(w));
    TxElsewhere(s.db, SetPlan(p, Executing), t);
    TxElsewhere(db1, Issue(w), t);
    ElsewhereTwice(s.db, db1, Apply(db1, Issue(w)), t);
    assert Apply(db1, Issue(w)).writes[|db1.writes|].plan == p;
    SectionKeepsInv(s, s.(db := Apply(db1, Issue(w)), jobs := Move(s, t, Issued)), t);
  }

  lemma PlanFacts(db: Db, torn: set<Tid>, p: Pid)
    requires Base(db, torn) && p in db.plans
    ensures PlanOk(db, p)
  {
  }

  lemma NoWriteYet(db: Db, torn: set<Tid>, p: Pid)
    requires Base(db, torn) && p in db.plans && db.plans[p].status.Approved?
    ensures forall i :: 0 <= i < |db.writes| ==> db.writes[i].plan != p
  {
    forall i | 0 <= i < |db.writes| ensures db.writes[i].plan != p { assert WriteOk(db, db.writes[i]); }
  }

  lemma RunKeepsInv(s: State, a: Action)
    requires Inv(s)
    ensures Inv(StepRun(s, a))
  {
    hide Inv, ApplyAll, SectionOf;
    if a.Tick? {
      TickKeepsInv(s);
    } else if SectionOf(s, a).Some? {
      if a.Send? || a.Confirm? || a.Cancel? || a.Shutdown? {
        RequestKeepsInv(s, a);
      } else if a.Stop? || a.Raise? || a.Answer? || a.Verified? || a.Finish? {
        EndKeepsInv(s, a);
      } else {
        JobKeepsInv(s, a);
      }
    }
  }

  lemma RequestKeepsInv(s: State, a: Action)
    requires Inv(s) && SectionOf(s, a).Some? && (a.Send? || a.Confirm? || a.Cancel? || a.Shutdown?)
    ensures Inv(StepRun(s, a))
  {
    hide Inv, ApplyAll, HasActive, DecisionSection, CancelSection;
    match a
    case Send(conversation, actor, t) => SendKeepsInv(s, conversation, actor, t);
    case Confirm(p, actor, approved) => ConfirmKeepsInv(s, p, actor, approved);
    case Cancel(t, actor) => CancelKeepsInv(s, t, actor);
    case Shutdown => ShutdownKeepsInv(s);
  }

  lemma EndKeepsInv(s: State, a: Action)
    requires Inv(s) && SectionOf(s, a).Some? && (a.Stop? || a.Raise? || a.Answer? || a.Verified? || a.Finish?)
    ensures Inv(StepRun(s, a))
  {
    hide Inv, ApplyAll, Completion;
    match a
    case Stop(t) => FailingKeepsInv(s, t, Cancelled);
    case Raise(t) => FailingKeepsInv(s, t, Failed);
    case Answer(t) => CompleteKeepsInv(s, t);
    case Verified(t, check) => AfterWriteKeepsInv(s, t, if check.Confirmed? then Done else Unknown);
    case Finish(t) => CompleteKeepsInv(s, t);
  }

  lemma JobKeepsInv(s: State, a: Action)
    requires Inv(s) && SectionOf(s, a).Some?
    requires a.Begin? || a.NoSlot? || a.Vanish? || a.Preview? || a.Interrupt? || a.Resume? || a.Enter? || a.Recheck? || a.Returned? || a.Reap?
    ensures Inv(StepRun(s, a))
  {
    hide Inv, ApplyAll, StepRun, BeginSection, PreviewSection, ResumeSection, EnterSection, RecheckSection, ReturnedSection;
    match a
    case Begin(t) => BeginKeepsInv(s, t);
    case NoSlot(t) => WaitKeepsInv(s, t);
    case Vanish(t) => VanishKeepsInv(s, t);
    case Preview(t, p, payload, actor, ttl) => PreviewKeepsInv(s, t, p, payload, actor, ttl);
    case Interrupt(t) => InterruptKeepsInv(s, t);
    case Resume(t, checkpoint) => ResumeKeepsInv(s, t, checkpoint);
    case Enter(t, actor) => EnterKeepsInv(s, t, actor);
    case Recheck(t, permitted, seen) => RecheckKeepsInv(s, t, permitted, seen);
    case Returned(t, reply) => ReturnedKeepsInv(s, t, reply);
    case Reap(t) => ReapKeepsInv(s, t);
  }

  lemma TickKeepsInv(s: State)
    requires Inv(s)
    ensures Inv(s.(now := s.now + 1))
  {
    hide Base;
    var s' := s.(now := s.now + 1);
    forall t | t in s'.db.tasks ensures TaskOk(s', t) { assert TaskOk(s, t); }
  }
}
