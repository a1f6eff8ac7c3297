/** Runs the coupling of tasks and plans has to except: fail() that gets no further than the plans, by a
    crash or by an error of the store; a cancel that reaches a confirmed job before its first step; errors
    that leave a queued or a running task without a job; and the one way a final status is overwritten. */
module AgentGaps {
  import opened AgentPlanning
  import opened AgentStore
  import opened AgentProtocol
  import opened AgentTransactions
  import opened AgentSections
  import opened AgentRecovery
  import opened AgentTheorems

  const ALICE: Actor := 1
  const ANY_ROLE := Role(5, "auditor", "auditor", ENABLED, false)
  const SOME_PAYLOAD := Payload(Employee(9, "bob", "Bob", "IT"), [], [PlannedRole(ANY_ROLE, multiset{})])

  lemma PayloadIsSound()
    ensures Sound(SOME_PAYLOAD)
  {
    assert IdsOf([]) == {};
  }

  /** One task with its plan. */
  function One(status: TaskStatus, plan: PlanStatus, approvals: map<Pid, Approval>, jobs: map<Tid, Job>): State {
    State(0, Db(map[0 := Task(0, ALICE, status)], map[0 := Plan(0, ALICE, SOME_PAYLOAD, plan, 60)], approvals, []), jobs, {}, {})
  }

  function NoPlan(status: TaskStatus, pc: Pc): State {
    State(0, Db(map[0 := Task(0, ALICE, status)], map[], map[], []), map[0 := Job(Content, pc, false)], {}, {})
  }

  lemma Sends()
    ensures Step(INIT, Run(Send(0, ALICE, 0))) == NoPlan(Queued, Fresh)
    ensures Step(NoPlan(Queued, Fresh), Run(Begin(0))) == NoPlan(Running, Thinking)
  {
    ApplyOne(INIT.db, AddTask(0, Task(0, ALICE, Queued)));
    ApplyOne(NoPlan(Queued, Fresh).db, SetTask(0, Running));
  }

  lemma Previews()
    ensures Step(NoPlan(Running, Thinking), Run(Preview(0, 0, SOME_PAYLOAD, ALICE, 60))) == One(Running, Pending, map[], map[0 := Job(Content, Paused(0), false)])
  {
    PayloadIsSound();
    hide Sound;
    ApplyOne(NoPlan(Running, Thinking).db, AddPlan(0, Plan(0, ALICE, SOME_PAYLOAD, Pending, 60)));
  }

  lemma Waits()
    ensures Step(One(Running, Pending, map[], map[0 := Job(Content, Paused(0), false)]), Run(Interrupt(0))) == One(Waiting, Pending, map[], map[0 := Job(Content, Ended, false)])
    ensures Step(One(Waiting, Pending, map[], map[0 := Job(Content, Ended, false)]), Run(Reap(0))) == One(Waiting, Pending, map[], map[])
  {
    ApplyOne(One(Running, Pending, map[], map[]).db, SetTask(0, Waiting));
    ApplyNone(One(Waiting, Pending, map[], map[]).db);
    assert map[0 := Job(Content, Ended, false)] - {0} == map[];
  }

  lemma {:induction false} TwoSteps(run: seq<Event>, e: Event, f: Event)
    ensures Exec(run + [e] + [f]) == Step(Step(Exec(run), e), f)
  {
    ExecStep(run, e);
    ExecStep(run + [e], f);
  }

  lemma Reach() returns (run: seq<Event>)
    ensures Exec(run) == One(Waiting, Pending, map[], map[]) && forall e :: e in run ==> !e.Crash?
  {
    hide Step, Inv, One, NoPlan, Exec;
    Sends();
    Previews();
    Waits();
    run := [];
    StartsEmpty();
    TwoSteps(run, Run(Send(0, ALICE, 0)), Run(Begin(0)));
    run := run + [Run(Send(0, ALICE, 0))] + [Run(Begin(0))];
    TwoSteps(run, Run(Preview(0, 0, SOME_PAYLOAD, ALICE, 60)), Run(Interrupt(0)));
    run := run + [Run(Preview(0, 0, SOME_PAYLOAD, ALICE, 60))] + [Run(Interrupt(0))];
    ExecStep(run, Run(Reap(0)));
    run := run + [Run(Reap(0))];
  }

  lemma StartsEmpty()
    ensures Exec([]) == INIT
  {
  }

  /** After the crash, and after any further restart, the task still waits, for a plan that is gone. */
  lemma TornTaskWaitsForNothing() returns (run: seq<Event>)
    ensures var s := Exec(run);
      0 in s.db.tasks && s.db.tasks[0].status.Waiting? && 0 in s.torn && forall p :: !PlanIs(s.db, p, 0, Pending)
  {
    run := Reach();
    hide Exec, Inv;
    var s := One(Waiting, Pending, map[], map[]);
    var e := Crash(Cancel(0, ALICE), 1, 0);
    ExecStep(run, e);
    CancelBreaks(s, 0);
    run := run + [e];
    var s' := Exec(run);
    assert s'.db.plans == map[0 := s.db.plans[0].(status := Dropped)];
  }

  /** The first transaction of a cancel without a job. */
  lemma CancelBreaks(s: State, t: Tid)
    requires t in s.db.tasks && s.db.tasks[t].status.Waiting? && s.db.tasks[t].actor == ALICE && t !in s.jobs
    ensures var a := Cancel(t, ALICE);
      Stores(s, a) && Tears(s, a, 1, 0) && !Strands(s, a, 1, 0) && ApplyAll(s.db, TxsUntil(s, a, 1, 0)) == Apply(s.db, EndPlans(t))
  {
    var a := Cancel(t, ALICE);
    assert TxsUntil(s, a, 1, 0) == [EndPlans(t)];
    ApplyOne(s.db, EndPlans(t));
  }

  /** No crash is needed: the store raises an error before the task is set. */
  lemma TornWithoutCrash() returns (run: seq<Event>)
    ensures var s := Exec(run);
      && (forall e :: e in run ==> !e.Crash?)
      && 0 in s.db.tasks && s.db.tasks[0].status.Waiting? && 0 in s.torn && forall p :: !PlanIs(s.db, p, 0, Pending)
  {
    run := Reach();
    hide Exec, Inv;
    var s := One(Waiting, Pending, map[], map[]);
    var e := Fault(Cancel(0, ALICE), 1, 0);
    ExecStep(run, e);
    CancelBreaks(s, 0);
    run := run + [e];
    var s' := Exec(run);
    assert s'.db.plans == map[0 := s.db.plans[0].(status := Dropped)];
  }

  /** The decision commits, and an error comes before the job is launched. */
  lemma DecidedButNotLaunched() returns (run: seq<Event>)
    ensures var s := Exec(run);
      && s.jobs == map[] && 0 in s.db.tasks && s.db.tasks[0].status.Queued? && 0 in s.abandoned
      && 0 in s.db.plans && s.db.plans[0].status.Approved?
  {
    run := Reach();
    hide Exec, Inv;
    var s := One(Waiting, Pending, map[], map[]);
    var a := Confirm(0, ALICE, true);
    ExecStep(run, Fault(a, 1, 0));
    var tx := Decide(0, true, Approval(ALICE, 0));
    assert TxsUntil(s, a, 1, 0) == [tx];
    ApplyOne(s.db, tx);
    run := run + [Fault(a, 1, 0)];
  }

  /** Before the first plan: the model is thinking about the only task. */
  lemma ReachThinking() returns (run: seq<Event>)
    ensures Exec(run) == NoPlan(Running, Thinking) && forall e :: e in run ==> !e.Crash?
  {
    hide Step, Inv, NoPlan, Exec;
    Sends();
    StartsEmpty();
    TwoSteps([], Run(Send(0, ALICE, 0)), Run(Begin(0)));
    run := [] + [Run(Send(0, ALICE, 0))] + [Run(Begin(0))];
  }

  lemma AnswerBreaks(j: nat)
    ensures var s, a := NoPlan(Running, Thinking), Answer(0);
      && Stores(s, a) && Caught(s, a)
      && TxsUntil(s, a, 1, j) == [SetTask(0, Succeeded)] + FirstOf(FailTxs(0, Failed), j) && TxsUntil(s, a, 0, 0) == []
  {
    var s := NoPlan(Running, Thinking);
    assert Completion(s.db.plans, 0) == Succeeded;
    assert FirstOf([SetTask(0, Succeeded)], 1) == [SetTask(0, Succeeded)];
  }

  /** The store is down when the job wants to set its final status, and still down when it wants to fail:
      the task runs on, and no job is there. */
  lemma RunningWithoutJob() returns (run: seq<Event>)
    ensures var s := Exec(run); Idle(s, 0) && 0 in s.db.tasks && s.db.tasks[0].status.Running? && 0 in s.abandoned
  {
    run := ReachThinking();
    hide Exec, Inv, Completion;
    ExecStep(run, Fault(Answer(0), 0, 0));
    AnswerBreaks(0);
    ApplyNone(NoPlan(Running, Thinking).db);
    run := run + [Fault(Answer(0), 0, 0)];
  }

  /** A task set succeeded, whose completion could not be reported, ends failed. */
  lemma SuccessOverwritten() returns (run: seq<Event>, a: Action)
    ensures var s := Exec(run);
      && Stores(s, a) && 0 in ApplyAll(s.db, TxsUntil(s, a, 1, 0)).tasks && ApplyAll(s.db, TxsUntil(s, a, 1, 0)).tasks[0].status.Succeeded?
      && 0 in Exec(run + [Fault(a, 1, 2)]).db.tasks && Exec(run + [Fault(a, 1, 2)]).db.tasks[0].status.Failed?
  {
    run := ReachThinking();
    a := Answer(0);
    hide Exec, Inv, ApplyAll, Completion, FailTxs;
    var db := NoPlan(Running, Thinking).db;
    var done := [SetTask(0, Succeeded)];
    ExecStep(run, Fault(a, 1, 2));
    AnswerBreaks(0);
    AnswerBreaks(2);
    assert done + FirstOf(FailTxs(0, Failed), 0) == done;
    ApplyOne(db, SetTask(0, Succeeded));
    ApplyMore(db, done, FirstOf(FailTxs(0, Failed), 2));
    ApplyFail(ApplyAll(db, done), 0, Failed, 2);
  }

  /** No restart repairs it. */
  lemma RestartsDoNotRepair(run: seq<Event>, t: Tid)
    requires var s := Exec(run); t in s.db.tasks && s.db.tasks[t].status.Waiting? && t in s.torn
    ensures var s := Exec(run + [Crash(Tick, 0, 0)]); t in s.db.tasks && s.db.tasks[t].status.Waiting? && t in s.torn
  {
    hide Exec, Inv;
    ExecStep(run, Crash(Tick, 0, 0));
  }

  /** A confirmed plan whose job vanished: queued and approved, and nobody to run it until its user
      cancels again or the server restarts. */
  lemma AbandonedTaskStaysQueued() returns (run: seq<Event>)
    ensures var s := Exec(run);
      && s.jobs == map[] && 0 in s.db.tasks && s.db.tasks[0].status.Queued? && 0 in s.abandoned
      && 0 in s.db.plans && s.db.plans[0].status.Approved?
  {
    run := Reach();
    hide Exec, Inv;
    ConfirmsAndCancels();
    Vanishes();
    TwoSteps(run, Run(Confirm(0, ALICE, true)), Run(Cancel(0, ALICE)));
    run := run + [Run(Confirm(0, ALICE, true))] + [Run(Cancel(0, ALICE))];
    TwoSteps(run, Run(Vanish(0)), Run(Reap(0)));
    run := run + [Run(Vanish(0))] + [Run(Reap(0))];
  }

  const YES := map[0 := Approval(ALICE, 0)]
  const READY := Job(Decision(0, true), Fresh, false)

  lemma ConfirmsAndCancels()
    ensures Step(One(Waiting, Pending, map[], map[]), Run(Confirm(0, ALICE, true))) == One(Queued, Approved, YES, map[0 := READY])
    ensures Step(One(Queued, Approved, YES, map[0 := READY]), Run(Cancel(0, ALICE))) == One(Queued, Approved, YES, map[0 := READY.(stopping := true)])
  {
    ApplyOne(One(Waiting, Pending, map[], map[]).db, Decide(0, true, Approval(ALICE, 0)));
    ApplyNone(One(Queued, Approved, YES, map[]).db);
  }

  lemma Vanishes()
    ensures var s := One(Queued, Approved, YES, map[0 := READY.(stopping := true)]);
      Step(Step(s, Run(Vanish(0))), Run(Reap(0))) == One(Queued, Approved, YES, map[]).(abandoned := {0})
  {
    var s := One(Queued, Approved, YES, map[0 := READY.(stopping := true)]);
    ApplyNone(s.db);
    var ended := READY.(pc := Ended, stopping := true);
    assert Step(s, Run(Vanish(0))) == s.(jobs := map[0 := ended], abandoned := {0});
    assert map[0 := ended] - {0} == map[];
  }
}
