/** Every single transaction keeps what a crash may leave behind in order. */
module AgentTransactions {
  import opened AgentPlanning
  import opened AgentStore
  import opened AgentProtocol

  /** A write's plan may change status only among the four that follow a write. */
  predicate PastWriting(status: PlanStatus) {
    status.Executing? || status.Done? || status.Refusal? || status.Unknown?
  }

  lemma SetTaskKeepsBase(db: Db, torn: set<Tid>, t: Tid, status: TaskStatus)
    requires Base(db, torn) && t in db.tasks
    requires status.Active() ==> db.tasks[t].status.Active()
    requires RestOk(WithTask(db, t, status), torn, t)
    ensures Base(WithTask(db, t, status), torn)
  {
    hide Sound, Matches;
    var db' := WithTask(db, t, status);
    forall u | u in db'.tasks ensures RestOk(db', torn, u) { if u != t { assert RestOk(db, torn, u); assert forall q :: IsOf(db', q, u) <==> IsOf(db, q, u); } }
    forall p | p in db'.plans ensures PlanOk(db', p) { assert PlanOk(db, p); }
    forall p, q, u | IsOf(db', p, u) && IsOf(db', q, u) ensures p == q { assert IsOf(db, p, u) && IsOf(db, q, u); }
    forall i | 0 <= i < |db'.writes| ensures WriteOk(db', db'.writes[i]) { assert WriteOk(db, db.writes[i]); }
  }

  /** The plans of a waiting task may end before the task does; then it is torn. */
  lemma EndPlansKeepsBase(db: Db, torn: set<Tid>, torn': set<Tid>, t: Tid)
    requires Base(db, torn) && t in db.tasks
    requires torn' == if db.tasks[t].status.Waiting? then torn + {t} else torn
    ensures Base(Apply(db, EndPlans(t)), torn')
  {
    hide Sound, Matches, RestOk, PlanOk;
    var db' := Apply(db, EndPlans(t));
    forall u | u in db'.tasks ensures RestOk(db', torn', u) { assert RestOk(db, torn, u); EndPlansKeepsRest(db, torn, torn', t, u); }
    forall p | p in db'.plans ensures PlanOk(db', p) { assert PlanOk(db, p); EndPlansKeepsPlan(db, t, p); }
    forall p, q, u | IsOf(db', p, u) && IsOf(db', q, u) ensures p == q { assert IsOf(db, p, u) && IsOf(db, q, u); }
    forall i | 0 <= i < |db'.writes| ensures WriteOk(db', db'.writes[i]) { assert WriteOk(db, db.writes[i]); }
  }

  lemma EndPlansKeepsPlan(db: Db, t: Tid, p: Pid)
    requires PlanOk(db, p)
    ensures PlanOk(Apply(db, EndPlans(t)), p)
  {
    hide Sound, Matches;
  }

  lemma EndPlansKeepsRest(db: Db, torn: set<Tid>, torn': set<Tid>, t: Tid, u: Tid)
    requires t in db.tasks && u in db.tasks && RestOk(db, torn, u)
    requires torn' == if db.tasks[t].status.Waiting? then torn + {t} else torn
    ensures RestOk(Apply(db, EndPlans(t)), torn', u)
  {
    hide Sound, Matches;
    PlansOfOthers(db, t, u);
  }

  lemma PlansOfOthers(db: Db, t: Tid, u: Tid)
    ensures forall p :: IsOf(Apply(db, EndPlans(t)), p, u) <==> IsOf(db, p, u)
  {
  }

  lemma SetPlanKeepsBase(db: Db, torn: set<Tid>, p: Pid, status: PlanStatus)
    requires Base(db, torn) && p in db.plans
    requires db.plans[p].task in db.tasks ==> RestOk(WithPlan(db, p, status), torn, db.plans[p].task)
    requires PastWriting(db.plans[p].status) ==> PastWriting(status)
    requires (status.Approved? ==> ApprovedInTime(db, p)) && (status.Done? ==> HasWrite(db, p))
    ensures Base(WithPlan(db, p, status), torn)
  {
    hide Sound, Matches;
    var db' := WithPlan(db, p, status);
    assert PlanOk(db, p);
    forall u | u in db'.tasks ensures RestOk(db', torn, u) {
      assert RestOk(db, torn, u);
      assert forall q :: IsOf(db', q, u) <==> IsOf(db, q, u);
    }
    forall q | q in db'.plans ensures PlanOk(db', q) { assert PlanOk(db, q); }
    forall q, r, u | IsOf(db', q, u) && IsOf(db', r, u) ensures q == r { assert IsOf(db, q, u) && IsOf(db, r, u); }
    forall i | 0 <= i < |db'.writes| ensures WriteOk(db', db'.writes[i]) { assert WriteOk(db, db.writes[i]); }
  }

  lemma AddPlanKeepsBase(db: Db, torn: set<Tid>, p: Pid, plan: Plan)
    requires Base(db, torn) && p !in db.plans && plan.task in db.tasks && db.tasks[plan.task].status.Running?
    requires plan.status.Pending? && Sound(plan.payload) && forall q :: !IsOf(db, q, plan.task)
    ensures Base(Apply(db, AddPlan(p, plan)), torn)
  {
    hide Sound, Matches;
    var db' := Apply(db, AddPlan(p, plan));
    forall u | u in db'.tasks ensures RestOk(db', torn, u) {
      assert RestOk(db, torn, u);
      assert forall q :: u != plan.task ==> (IsOf(db', q, u) <==> IsOf(db, q, u));
    }
    forall q | q in db'.plans ensures PlanOk(db', q) { if q != p { assert PlanOk(db, q); } }
    forall q, r, u | IsOf(db', q, u) && IsOf(db', r, u) ensures q == r {
      assert q != p ==> IsOf(db, q, u);
      assert r != p ==> IsOf(db, r, u);
    }
    forall i | 0 <= i < |db'.writes| ensures WriteOk(db', db'.writes[i]) { assert WriteOk(db, db.writes[i]); }
  }

  lemma AddTaskKeepsBase(db: Db, torn: set<Tid>, t: Tid, task: Task)
    requires Base(db, torn) && t !in db.tasks && task.status.Queued? && !HasActive(db, task.conversation)
    ensures Base(Apply(db, AddTask(t, task)), torn)
  {
    hide Sound, Matches;
    var db' := Apply(db, AddTask(t, task));
    forall u | u in db'.tasks ensures RestOk(db', torn, u) { if u != t { assert RestOk(db, torn, u); assert forall q :: IsOf(db', q, u) <==> IsOf(db, q, u); } }
    forall q | q in db'.plans ensures PlanOk(db', q) { assert PlanOk(db, q); }
    forall q, r, u | IsOf(db', q, u) && IsOf(db', r, u) ensures q == r { assert IsOf(db, q, u) && IsOf(db, r, u); }
    forall i | 0 <= i < |db'.writes| ensures WriteOk(db', db'.writes[i]) { assert WriteOk(db, db.writes[i]); }
  }

  lemma WritesStay(db: Db, db': Db, p: Pid)
    requires db.writes <= db'.writes
    ensures HasWrite(db, p) ==> HasWrite(db', p)
  {
    if HasWrite(db, p) {
      var i :| 0 <= i < |db.writes| && db.writes[i].plan == p;
      assert db'.writes[i].plan == p;
    }
  }

  lemma IssueKeepsBase(db: Db, torn: set<Tid>, w: Write)
    requires Base(db, torn) && WriteOk(db, w)
    requires forall i :: 0 <= i < |db.writes| ==> db.writes[i].plan != w.plan
    ensures Base(Apply(db, Issue(w)), torn)
  {
    hide Sound, Matches;
    var db' := Apply(db, Issue(w));
    forall u | u in db'.tasks ensures RestOk(db', torn, u) { assert RestOk(db, torn, u); assert forall q :: IsOf(db', q, u) <==> IsOf(db, q, u); }
    forall q | q in db'.plans ensures PlanOk(db', q) { assert PlanOk(db, q); WritesStay(db, db', q); }
    forall q, r, u | IsOf(db', q, u) && IsOf(db', r, u) ensures q == r { assert IsOf(db, q, u) && IsOf(db, r, u); }
    forall i | 0 <= i < |db'.writes| ensures WriteOk(db', db'.writes[i]) { if i < |db.writes| { assert WriteOk(db, db.writes[i]); } }
  }

  lemma DecideKeepsBase(db: Db, torn: set<Tid>, p: Pid, approved: bool, approval: Approval)
    requires Base(db, torn) && p in db.plans && db.plans[p].status.Pending? && db.plans[p].task in db.tasks
    requires db.tasks[db.plans[p].task].status.Waiting?
    requires approved ==> approval.actor == db.plans[p].actor && approval.at < db.plans[p].expiresAt
    ensures Base(Apply(db, Decide(p, approved, approval)), torn)
  {
    hide Base, Sound, Matches, WritesOk;
    var t := db.plans[p].task;
    QueueKeepsBase(db, torn, p, t);
    var db1 := WithTask(db, t, Queued);
    var db2 := if approved then db1.(approvals := db1.approvals[p := approval]) else db1;
    if approved { ApproveKeepsBase(db1, torn, p, approval); }
    SetPlanKeepsBase(db2, torn, p, if approved then Approved else Rejected);
  }

  lemma QueueKeepsBase(db: Db, torn: set<Tid>, p: Pid, t: Tid)
    requires Base(db, torn) && t in db.tasks && db.tasks[t].status.Waiting? && PlanIs(db, p, t, Pending)
    ensures Base(WithTask(db, t, Queued), torn) && t !in torn
  {
    assert RestOk(db, torn, t) && IsOf(db, p, t);
    hide Base;
    SetTaskKeepsBase(db, torn, t, Queued);
  }

  lemma ApproveKeepsBase(db: Db, torn: set<Tid>, p: Pid, approval: Approval)
    requires Base(db, torn) && p in db.plans
    requires approval.actor == db.plans[p].actor && approval.at < db.plans[p].expiresAt
    ensures Base(db.(approvals := db.approvals[p := approval]), torn)
  {
    hide Sound, Matches;
    var db' := db.(approvals := db.approvals[p := approval]);
    forall u | u in db'.tasks ensures RestOk(db', torn, u) { assert RestOk(db, torn, u); assert forall q :: IsOf(db', q, u) <==> IsOf(db, q, u); }
    forall q | q in db'.plans ensures PlanOk(db', q) { assert PlanOk(db, q); }
    forall q, r, u | IsOf(db', q, u) && IsOf(db', r, u) ensures q == r { assert IsOf(db, q, u) && IsOf(db, r, u); }
    forall i | 0 <= i < |db'.writes| ensures WriteOk(db', db'.writes[i]) { assert WriteOk(db, db.writes[i]); }
  }
}
