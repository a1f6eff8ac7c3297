/** The agent server's tables: tasks and operation plans, and the two sweeps over them that end
    interrupted work, row by row as the server writes them. */
module AgentStore {
  import opened AgentPlanning

  type Tid = nat
  type Pid = nat
  type Conversation = nat
  type Actor = nat

  datatype TaskStatus = Queued | Running | Waiting | Succeeded | Failed | Cancelled {
    predicate Active() { Queued? || Running? || Waiting? }
  }

  datatype Task = Task(conversation: Conversation, actor: Actor, status: TaskStatus)

  datatype PlanStatus =
    | Pending | Approved | Executing
    | Done | Refusal | Unknown | Conflict | Expired | Rejected | Dropped
  {
    predicate Live() { Pending? || Approved? || Executing? }
  }

  datatype Plan = Plan(task: Tid, actor: Actor, payload: Payload, status: PlanStatus, expiresAt: nat)

  type Tasks = map<Tid, Task>
  type Plans = map<Pid, Plan>

  /** What a plan's status becomes when its task ends early. */
  function EndedStatus(status: PlanStatus): PlanStatus {
    if status.Executing? then Unknown else if status.Pending? || status.Approved? then Dropped else status
  }

  function EndPlansOf(plans: Plans, t: Tid): Plans {
    map p | p in plans :: if plans[p].task == t then plans[p].(status := EndedStatus(plans[p].status)) else plans[p]
  }

  predicate Interrupted(tasks: Tasks, t: Tid) {
    t in tasks && (tasks[t].status.Queued? || tasks[t].status.Running?)
  }

  function RecoverTasks(tasks: Tasks): Tasks {
    map t | t in tasks :: if Interrupted(tasks, t) then tasks[t].(status := Failed) else tasks[t]
  }

  function RecoverPlans(tasks: Tasks, plans: Plans): Plans {
    map p | p in plans ::
      if plans[p].status.Executing? then plans[p].(status := Unknown)
      else if Interrupted(tasks, plans[p].task) && plans[p].status.Live() then plans[p].(status := Dropped)
      else plans[p]
  }

  class Store {
    var tasks: Tasks
    var plans: Plans

    constructor ()
      ensures tasks == map[] && plans == map[]
    {
      tasks, plans := map[], map[];
    }

    method SetTask(t: Tid, status: TaskStatus)
      modifies this`tasks
      ensures tasks == if t in old(tasks) then old(tasks)[t := old(tasks)[t].(status := status)] else old(tasks)
    {
      if t in tasks {
        tasks := tasks[t := tasks[t].(status := status)];
      }
    }

    /** The first transaction of fail(): one pass over the task's plans. */
    method EndPlans(t: Tid)
      modifies this`plans
      ensures plans == EndPlansOf(old(plans), t)
    {
      var todo := plans.Keys;
      while todo != {}
        invariant todo <= plans.Keys && plans.Keys == old(plans).Keys
        invariant forall p :: p in plans ==> plans[p] == if p in todo then old(plans)[p] else EndPlansOf(old(plans), t)[p]
        decreases todo
      {
        var p :| p in todo;
        todo := todo - {p};
        if plans[p].task == t {
          if plans[p].status.Executing? {
            plans := plans[p := plans[p].(status := Unknown)];
          } else if plans[p].status.Pending? || plans[p].status.Approved? {
            plans := plans[p := plans[p].(status := Dropped)];
          }
        }
      }
    }

    /** fail(): two transactions, plans first. */
    method Fail(t: Tid, status: TaskStatus)
      modifies this
      ensures plans == EndPlansOf(old(plans), t)
      ensures tasks == if t in old(tasks) then old(tasks)[t := old(tasks)[t].(status := status)] else old(tasks)
    {
      EndPlans(t);
      SetTask(t, status);
    }

    /** The startup sweep, one transaction: each queued or running task fails and its open plans are
        dropped; then every plan still executing, of any task, becomes unknown. */
    method RecoverInterruptedRuns()
      modifies this
      ensures tasks == RecoverTasks(old(tasks)) && plans == RecoverPlans(old(tasks), old(plans))
    {
      hide RecoverPlans, DropOpen, FailedIn, DropWhere;
      ghost var tasks0, plans0 := tasks, plans;
      var todo := tasks.Keys;
      ghost var done: set<Tid> := {};
      SweepNone(tasks0, plans0);
      while todo != {}
        invariant todo + done == tasks0.Keys && todo !! done
        invariant tasks == FailedIn(tasks0, done) && plans == DropOpen(tasks0, plans0, done)
        decreases todo
      {
        var t :| t in todo;
        todo := todo - {t};
        SweepOne(tasks0, plans0, done, t);
        if tasks[t].status.Queued? || tasks[t].status.Running? {
          tasks := tasks[t := tasks[t].(status := Failed)];
          DropPlansOf(t);
        }
        done := done + {t};
      }
      MarkUnknown();
      Recovered(tasks0, plans0, done);
    }

    /** UPDATE ... WHERE task and status in (pending, approved). */
    method DropPlansOf(t: Tid)
      modifies this`plans
      ensures plans == DropWhere(old(plans), {t})
    {
      var todo := plans.Keys;
      while todo != {}
        invariant todo <= plans.Keys && plans.Keys == old(plans).Keys
        invariant forall p :: p in plans ==> plans[p] == if p in todo then old(plans)[p] else DropWhere(old(plans), {t})[p]
        decreases todo
      {
        var p :| p in todo;
        todo := todo - {p};
        if plans[p].task == t && (plans[p].status.Pending? || plans[p].status.Approved?) {
          plans := plans[p := plans[p].(status := Dropped)];
        }
      }
    }

    /** UPDATE ... WHERE status = executing. */
    method MarkUnknown()
      modifies this`plans
      ensures plans == Unknowns(old(plans))
    {
      var todo := plans.Keys;
      while todo != {}
        invariant todo <= plans.Keys && plans.Keys == old(plans).Keys
        invariant forall p :: p in plans ==> plans[p] == if p in todo then old(plans)[p] else Unknowns(old(plans))[p]
        decreases todo
      {
        var p :| p in todo;
        todo := todo - {p};
        if plans[p].status.Executing? {
          plans := plans[p := plans[p].(status := Unknown)];
        }
      }
    }
  }

  function DropWhere(plans: Plans, ts: set<Tid>): Plans {
    map p | p in plans :: if plans[p].task in ts && (plans[p].status.Pending? || plans[p].status.Approved?) then plans[p].(status := Dropped) else plans[p]
  }

  function InterruptedIn(tasks: Tasks, ts: set<Tid>): set<Tid> {
    set t | t in ts && Interrupted(tasks, t)
  }

  function DropOpen(tasks: Tasks, plans: Plans, done: set<Tid>): Plans {
    DropWhere(plans, InterruptedIn(tasks, done))
  }

  function Unknowns(plans: Plans): Plans {
    map p | p in plans :: if plans[p].status.Executing? then plans[p].(status := Unknown) else plans[p]
  }

  function FailedIn(tasks: Tasks, done: set<Tid>): Tasks {
    map t | t in tasks :: if t in done && Interrupted(tasks, t) then tasks[t].(status := Failed) else tasks[t]
  }

  lemma SweepNone(tasks: Tasks, plans: Plans)
    ensures FailedIn(tasks, {}) == tasks && DropOpen(tasks, plans, {}) == plans
  {
  }

  lemma SweepOne(tasks: Tasks, plans: Plans, done: set<Tid>, t: Tid)
    requires t in tasks && t !in done
    ensures t in FailedIn(tasks, done) && FailedIn(tasks, done)[t] == tasks[t]
    ensures FailedIn(tasks, done + {t}) == if Interrupted(tasks, t) then FailedIn(tasks, done)[t := tasks[t].(status := Failed)] else FailedIn(tasks, done)
    ensures DropOpen(tasks, plans, done + {t}) == if Interrupted(tasks, t) then DropWhere(DropOpen(tasks, plans, done), {t}) else DropOpen(tasks, plans, done)
  {
  }

  lemma Recovered(tasks: Tasks, plans: Plans, done: set<Tid>)
    requires done == tasks.Keys
    ensures FailedIn(tasks, done) == RecoverTasks(tasks)
    ensures Unknowns(DropOpen(tasks, plans, done)) == RecoverPlans(tasks, plans)
  {
  }
}
