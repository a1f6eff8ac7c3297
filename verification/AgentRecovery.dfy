/** An error of the store at any point, and a crash at any point with the recovery after it, keep the
    invariant; and so does every step and run. */
module AgentRecovery {
  import opened AgentPlanning
  import opened AgentStore
  import opened AgentProtocol
  import opened AgentTransactions
  import opened AgentSections

  /** What the first k transactions of a section leave is in order but for the jobs. */
  lemma SectionLeavesBase(s: State, a: Action, k: nat)
    requires Inv(s) && Stores(s, a)
    ensures Base(ApplyAll(s.db, FirstOf(SectionOf(s, a).value.txs, k)), if CutsCancel(s, a, k) then s.torn + {a.t} else s.torn)
  {
    hide Inv, Base, Completion, HasActive, Matches, ApplyAll;
    var txs := SectionOf(s, a).value.txs;
    if k == 0 {
      assert FirstOf(txs, 0) == [];
      InvHasBase(s);
      ApplyNone(s.db);
    } else if k >= |txs| {
      assert FirstOf(txs, k) == txs;
      RunKeepsInv(s, a);
      InvHasBase(StepRun(s, a));
    } else {
      AtMostTwo(s, a);
      assert FirstOf(txs, k) == [txs[0]];
      ApplyOne(s.db, txs[0]);
      HalfDone(s, a);
    }
  }

  /** A cancel of a waiting task without a job, between the two transactions of fail(). */
  predicate CutsCancel(s: State, a: Action, k: nat)
    requires Stores(s, a)
  {
    a.Cancel? && s.db.tasks[a.t].status.Waiting? && a.t !in s.jobs && k == 1
  }

  lemma AtMostTwo(s: State, a: Action)
    requires Stores(s, a)
    ensures |SectionOf(s, a).value.txs| <= 2
  {
    hide HasActive, Completion, Matches, Sound, AddedIds;
  }

  lemma InvHasBase(s: State)
    requires Inv(s)
    ensures Base(s.db, s.torn)
  {
  }

  /** The sections of two transactions: fail(), and the issue of a write. */
  lemma HalfDone(s: State, a: Action)
    requires Inv(s) && Stores(s, a) && |SectionOf(s, a).value.txs| == 2
    ensures Base(Apply(s.db, SectionOf(s, a).value.txs[0]), if CutsCancel(s, a, 1) then s.torn + {a.t} else s.torn)
  {
    hide Inv, Base, Completion, HasActive, Matches, Sound;
    match a
    case Cancel(t, actor) =>
      TaskFacts(s, t);
      FailTxsKeepBase(s.db, s.torn, if s.db.tasks[t].status.Waiting? then s.torn + {t} else s.torn, t, Cancelled);
    case Stop(t) => FailingKeepsInv(s, t, Cancelled);
    case Raise(t) => FailingKeepsInv(s, t, Failed);
    case Resume(t, _) => FailingKeepsInv(s, t, Failed);
    case Enter(t, _) => FailingKeepsInv(s, t, Failed);
    case Recheck(t, permitted, seen) =>
      if permitted && Matches(s.db.plans[s.jobs[t].start.plan].payload, seen) {
        RecheckKeepsInv(s, t, permitted, seen);
      } else {
        FailingKeepsInv(s, t, Failed);
      }
  }

  lemma {:induction false} ApplyMore(db: Db, txs: seq<Tx>, more: seq<Tx>)
    ensures ApplyAll(db, txs + more) == ApplyAll(ApplyAll(db, txs), more)
    decreases |txs|
  {
    if txs == [] {
      assert txs + more == more;
    } else {
      assert (txs + more)[0] == txs[0] && (txs + more)[1..] == txs[1..] + more;
      ApplyMore(Apply(db, txs[0]), txs[1..], more);
    }
  }

  lemma ApplyFail(db: Db, t: Tid, status: TaskStatus, j: nat)
    ensures ApplyAll(db, FirstOf(FailTxs(t, status), j)) ==
      if j == 0 then db else if j == 1 then Apply(db, EndPlans(t)) else Apply(Apply(db, EndPlans(t)), SetTask(t, status))
  {
    hide ApplyAll;
    var txs := FailTxs(t, status);
    if j == 0 {
      assert FirstOf(txs, j) == [];
      ApplyNone(db);
    } else if j == 1 {
      assert FirstOf(txs, j) == [EndPlans(t)];
      ApplyOne(db, EndPlans(t));
    } else {
      assert FirstOf(txs, j) == [EndPlans(t), SetTask(t, status)];
      ApplyTwo(db, EndPlans(t), SetTask(t, status));
    }
  }

  /** What the first j transactions of fail() do to a plan of the task. */
  lemma FailEnds(db: Db, t: Tid, p: Pid, status: TaskStatus, j: nat)
    requires IsOf(db, p, t)
    ensures var db' := ApplyAll(db, FirstOf(FailTxs(t, status), j));
      IsOf(db', p, t) && db'.plans[p].status == if j == 0 then db.plans[p].status else EndedStatus(db.plans[p].status)
  {
    hide ApplyAll, FirstOf;
    ApplyFail(db, t, status, j);
  }

  /** What a job's section does to its task's status. */
  ghost predicate Shape(s: State, a: Action, txs: seq<Tx>)
    requires OfJob(a)
  {
    if a.Begin? then txs == [SetTask(a.t, Running)]
    else if a.Interrupt? then txs == [SetTask(a.t, Waiting)]
    else if a.Answer? || a.Finish? then txs == [SetTask(a.t, Completion(s.db.plans, a.t))]
    else if IsFail(txs) then txs == FailTxs(a.t, Failed) || txs == FailTxs(a.t, Cancelled)
    else |txs| <= 2 && forall tx :: tx in txs ==> tx.AddPlan? || tx.SetPlan? || tx.Issue?
  }

  /** The task of a job's section was queued or running. */
  lemma JobSections(s: State, a: Action)
    requires Inv(s) && Stores(s, a) && OfJob(a)
    ensures a.t in s.jobs && a.t in s.db.tasks && Interrupted(s.db.tasks, a.t) && !Idle(s, a.t)
    ensures Shape(s, a, SectionOf(s, a).value.txs)
  {
    hide Inv, Base, ApplyAll, Completion, HasActive, Matches, Sound, AddedIds;
    TaskFacts(s, a.t);
  }

  lemma {:induction false} PlansOnly(db: Db, txs: seq<Tx>)
    requires forall tx :: tx in txs ==> tx.AddPlan? || tx.SetPlan? || tx.Issue?
    ensures ApplyAll(db, txs).tasks == db.tasks
    decreases |txs|
  {
    if txs != [] {
      assert txs[0] in txs && Apply(db, txs[0]).tasks == db.tasks;
      PlansOnly(Apply(db, txs[0]), txs[1..]);
    }
  }

  /** What the task of a job's section is after the first k transactions. */
  lemma StatusUntil(s: State, a: Action, k: nat)
    requires Inv(s) && Stores(s, a) && OfJob(a)
    ensures a.t in s.jobs && a.t in s.db.tasks && Interrupted(s.db.tasks, a.t) && !Idle(s, a.t)
    ensures var txs := SectionOf(s, a).value.txs;
      var db := ApplyAll(s.db, FirstOf(txs, k));
      && a.t in db.tasks
      && (db.tasks[a.t].status.Waiting? <==> a.Interrupt? && k >= 1)
      && (db.tasks[a.t].status.Active() <==> !(k >= 1 && (a.Answer? || a.Finish?)) && !(k >= 2 && IsFail(txs)))
  {
    hide Inv, ApplyAll, Completion, SectionOf;
    JobSections(s, a);
    CompletionEnds(s.db.plans, a.t);
    var txs := SectionOf(s, a).value.txs;
    if IsFail(txs) {
      ApplyFail(s.db, a.t, if txs == FailTxs(a.t, Failed) then Failed else Cancelled, k);
    } else if a.Begin? || a.Interrupt? || a.Answer? || a.Finish? {
      assert FirstOf(txs, k) == if k == 0 then [] else [txs[0]];
      ApplyNone(s.db);
      ApplyOne(s.db, txs[0]);
    } else {
      PlansOnly(s.db, FirstOf(txs, k));
    }
  }

  /** Whatever was committed when a section broke off, the tables are in order. */
  lemma UntilLeavesBase(s: State, a: Action, k: nat, j: nat)
    requires Inv(s) && Stores(s, a)
    ensures Base(ApplyAll(s.db, TxsUntil(s, a, k, j)), if Tears(s, a, k, j) then s.torn + {a.t} else s.torn)
  {
    hide Inv, Base, ApplyAll, SectionOf, FirstOf;
    var txs := SectionOf(s, a).value.txs;
    SectionLeavesBase(s, a, k);
    ApplyMore(s.db, FirstOf(txs, k), if Caught(s, a) then FirstOf(FailTxs(a.t, Failed), j) else []);
    var db1 := ApplyAll(s.db, FirstOf(txs, k));
    ApplyNone(db1);
    if OfJob(a) { StatusUntil(s, a, k); }
    if Caught(s, a) {
      ApplyFail(db1, a.t, Failed, j);
      FailTxsKeepBase(db1, s.torn, if db1.tasks[a.t].status.Waiting? then s.torn + {a.t} else s.torn, a.t, Failed);
    } else if a.Interrupt? {
      CaughtInterrupt(s, a);
    }
  }

  lemma CaughtInterrupt(s: State, a: Action)
    requires Stores(s, a) && a.Interrupt?
    ensures Caught(s, a)
  {
  }

  lemma RecoveredPlans(db: Db, torn: set<Tid>, t: Tid)
    requires Base(db, torn) && t in db.tasks && RestOk(db, torn, t)
    ensures Interrupted(db.tasks, t) ==> forall p :: IsOf(db, p, t) ==> !RecoverPlans(db.tasks, db.plans)[p].status.Live()
    ensures !Interrupted(db.tasks, t) ==> forall p :: IsOf(db, p, t) ==>
      RecoverPlans(db.tasks, db.plans)[p].status == db.plans[p].status || (db.plans[p].status.Executing? && !db.tasks[t].status.Waiting?)
  {
    hide PlansOk, WritesOk, OneActive;
  }

  lemma RecoveredPlan(db: Db, torn: set<Tid>, p: Pid)
    requires Base(db, torn) && p in db.plans && PlanOk(db, p)
    ensures var q := RecoverPlans(db.tasks, db.plans)[p];
      q.task == db.plans[p].task && q.payload == db.plans[p].payload && !q.status.Approved?
  {
    assert RestOk(db, torn, db.plans[p].task) && IsOf(db, p, db.plans[p].task);
    hide PlansOk, WritesOk, OneActive;
  }

  lemma RecoveredRest(db: Db, torn: set<Tid>, t: Tid)
    requires Base(db, torn) && t in db.tasks
    ensures RestOk(Recover(db), torn, t)
  {
    assert RestOk(db, torn, t);
    RecoveredPlans(db, torn, t);
    hide Base, RecoverPlans;
    RecoveredKeeps(db);
    assert forall p :: IsOf(Recover(db), p, t) <==> IsOf(db, p, t);
  }

  lemma RecoveredKeeps(db: Db)
    ensures Recover(db).plans.Keys == db.plans.Keys && forall p :: p in db.plans ==> Recover(db).plans[p].task == db.plans[p].task
  {
  }

  lemma RecoveredWrites(db: Db, torn: set<Tid>)
    requires Base(db, torn)
    ensures WritesOk(Recover(db))
  {
    hide Sound, Matches, PlansOk, OneActive, RestOk;
    var db' := Recover(db);
    forall i | 0 <= i < |db'.writes| ensures WriteOk(db', db'.writes[i]) { assert WriteOk(db, db.writes[i]); }
  }

  lemma RecoveredPlansOk(db: Db, torn: set<Tid>)
    requires Base(db, torn)
    ensures PlansOk(Recover(db))
  {
    hide Sound, Matches, WritesOk, OneActive, RestOk;
    var db' := Recover(db);
    forall p | p in db'.plans ensures PlanOk(db', p) { assert PlanOk(db, p); RecoveredPlan(db, torn, p); }
    forall p, q, t | IsOf(db', p, t) && IsOf(db', q, t) ensures p == q { assert IsOf(db, p, t) && IsOf(db, q, t); }
  }

  lemma RecoveredBase(db: Db, torn: set<Tid>)
    requires Base(db, torn)
    ensures Base(Recover(db), torn)
  {
    var db' := Recover(db);
    forall t | t in db'.tasks ensures RestOk(db', torn, t) { RecoveredRest(db, torn, t); }
    RecoveredWrites(db, torn);
    RecoveredPlansOk(db, torn);
    hide RestOk, WritesOk, PlansOk;
    assert OneActive(db'.tasks);
  }

  /** Recovery brings every task and plan in order, whatever section the crash cut. */
  lemma RecoverRestores(db: Db, torn: set<Tid>, now: nat)
    requires Base(db, torn)
    ensures Inv(State(now, Recover(db), map[], torn, {}))
  {
    hide Base, RecoverPlans;
    RecoveredBase(db, torn);
  }

  lemma CrashKeepsInv(s: State, a: Action, k: nat, j: nat)
    requires Inv(s)
    ensures Inv(StepCrash(s, a, k, j))
  {
    hide Inv, Base, ApplyAll, TxsUntil, SectionOf;
    InvHasBase(s);
    if Stores(s, a) {
      UntilLeavesBase(s, a, k, j);
      RecoverRestores(ApplyAll(s.db, TxsUntil(s, a, k, j)), if Tears(s, a, k, j) then s.torn + {a.t} else s.torn, s.now);
    } else {
      RecoverRestores(s.db, s.torn, s.now);
    }
  }

  // ---------- errors of the store ----------

  /** The transactions of a section work on one task. */
  lemma SectionElsewhere(s: State, a: Action, k: nat)
    requires Inv(s) && Stores(s, a)
    ensures SameElsewhere(s.db, ApplyAll(s.db, FirstOf(SectionOf(s, a).value.txs, k)), TaskOf(s, a))
  {
    AtMostTwo(s, a);
    SectionConcerns(s, a);
    hide *;
    var txs, t := SectionOf(s, a).value.txs, TaskOf(s, a);
    FirstTwo(txs, k);
    ApplyNone(s.db);
    NothingElsewhere(s.db, t);
    if |txs| >= 1 {
      ApplyOne(s.db, txs[0]);
      assert FirstOf(txs, 1) == [txs[0]];
      TxElsewhere(s.db, txs[0], t);
    }
    if |txs| == 2 {
      var db1 := Apply(s.db, txs[0]);
      ApplyTwo(s.db, txs[0], txs[1]);
      assert FirstOf(txs, 2) == [txs[0], txs[1]];
      TxElsewhere(db1, txs[1], t);
      ElsewhereTwice(s.db, db1, Apply(db1, txs[1]), t);
    }
  }

  lemma FirstTwo(txs: seq<Tx>, k: nat)
    requires |txs| <= 2
    ensures FirstOf(txs, 0) == []
    ensures |txs| >= 1 ==> FirstOf(txs, 1) == [txs[0]]
    ensures |txs| == 2 ==> FirstOf(txs, 2) == [txs[0], txs[1]]
    ensures FirstOf(txs, k) == if k == 0 || txs == [] then [] else if k == 1 || |txs| == 1 then [txs[0]] else [txs[0], txs[1]]
  {
  }

  lemma {:induction false} TasksStay(db: Db, txs: seq<Tx>, u: Tid)
    requires u in db.tasks
    ensures u in ApplyAll(db, txs).tasks
    decreases |txs|
  {
    if txs != [] { TasksStay(Apply(db, txs[0]), txs[1..], u); }
  }

  lemma NothingElsewhere(db: Db, t: Tid)
    ensures SameElsewhere(db, db, t)
  {
  }

  lemma SectionConcerns(s: State, a: Action)
    requires Inv(s) && Stores(s, a)
    ensures var txs := SectionOf(s, a).value.txs;
      && (|txs| >= 1 ==> Concerns(s.db, txs[0], TaskOf(s, a)))
      && (|txs| == 2 ==> Concerns(Apply(s.db, txs[0]), txs[1], TaskOf(s, a)))
  {
    hide Inv, Base, Completion, HasActive, Matches, Sound, AddedIds;
    if OfJob(a) { TaskFacts(s, a.t); }
  }

  /** The whole of what was committed works on that task as well. */
  lemma UntilElsewhere(s: State, a: Action, k: nat, j: nat)
    requires Inv(s) && Stores(s, a)
    ensures var db' := ApplyAll(s.db, TxsUntil(s, a, k, j));
      SameElsewhere(s.db, db', TaskOf(s, a)) && forall u :: u in s.db.tasks ==> u in db'.tasks
  {
    forall u | u in s.db.tasks ensures u in ApplyAll(s.db, TxsUntil(s, a, k, j)).tasks {
      TasksStay(s.db, TxsUntil(s, a, k, j), u);
    }
    SectionElsewhere(s, a, k);
    hide Inv, ApplyAll, SameElsewhere, SectionOf, FirstOf, Apply;
    var txs, t := SectionOf(s, a).value.txs, TaskOf(s, a);
    ApplyMore(s.db, FirstOf(txs, k), if Caught(s, a) then FirstOf(FailTxs(a.t, Failed), j) else []);
    var db1 := ApplyAll(s.db, FirstOf(txs, k));
    ApplyNone(db1);
    if Caught(s, a) {
      var db2 := Apply(db1, EndPlans(t));
      ApplyFail(db1, t, Failed, j);
      TxElsewhere(db1, EndPlans(t), t);
      TxElsewhere(db2, SetTask(t, Failed), t);
      ElsewhereTwice(s.db, db1, db2, t);
      ElsewhereTwice(s.db, db2, Apply(db2, SetTask(t, Failed)), t);
    }
  }

  /** What the task of the section is in the end. */
  lemma StatusInTheEnd(s: State, a: Action, k: nat, j: nat)
    requires Inv(s) && Stores(s, a) && OfJob(a)
    ensures var db' := ApplyAll(s.db, TxsUntil(s, a, k, j));
      && a.t in db'.tasks
      && (db'.tasks[a.t].status.Active() <==>
          !(k >= 1 && (a.Answer? || a.Finish?)) && !(k >= 2 && IsFail(SectionOf(s, a).value.txs)) && !(j >= 2 && Caught(s, a)))
      && (db'.tasks[a.t].status.Active() && !db'.tasks[a.t].status.Waiting? ==> Strands(s, a, k, j))
      && (db'.tasks[a.t].status.Waiting? ==> !Strands(s, a, k, j))
  {
    hide Inv, ApplyAll, FirstOf, SectionOf;
    var txs := SectionOf(s, a).value.txs;
    StatusUntil(s, a, k);
    ApplyMore(s.db, FirstOf(txs, k), if Caught(s, a) then FirstOf(FailTxs(a.t, Failed), j) else []);
    var db1 := ApplyAll(s.db, FirstOf(txs, k));
    ApplyNone(db1);
    ApplyFail(db1, a.t, Failed, j);
    if a.Interrupt? { CaughtInterrupt(s, a); }
    if a.Answer? || a.Finish? { CaughtCompletion(s, a); }
  }

  lemma CaughtCompletion(s: State, a: Action)
    requires Stores(s, a) && (a.Answer? || a.Finish?)
    ensures Caught(s, a)
  {
  }

  lemma JobFaultKeepsInv(s: State, a: Action, k: nat, j: nat)
    requires Inv(s) && Stores(s, a) && OfJob(a)
    ensures Inv(StepFault(s, a, k, j))
  {
    hide Inv, Base, ApplyAll, SectionOf, TxsUntil, Tears, Strands, SameElsewhere, RunningOk, StartOk;
    var t := a.t;
    StatusUntil(s, a, 0);
    TaskFacts(s, t);
    UntilLeavesBase(s, a, k, j);
    UntilElsewhere(s, a, k, j);
    StatusInTheEnd(s, a, k, j);
    SectionKeepsInv(s, StepFault(s, a, k, j), t);
  }

  lemma HandlerFaultKeepsInv(s: State, a: Action, k: nat, j: nat)
    requires Inv(s) && Stores(s, a) && OfHandler(a)
    ensures Inv(StepFault(s, a, k, j))
  {
    hide Inv, Base, ApplyAll, SameElsewhere, RunningOk, StartOk, HasActive;
    var t := TaskOf(s, a);
    var s' := StepFault(s, a, k, j);
    var txs := SectionOf(s, a).value.txs;
    UntilLeavesBase(s, a, k, j);
    UntilElsewhere(s, a, k, j);
    HandlerStatus(s, a, k);
    AbandonedHaveTasks(s);
    assert TxsUntil(s, a, k, j) == FirstOf(txs, k);
    if !a.Send? { TaskFacts(s, t); }
    SectionKeepsInv(s, s', t);
  }

  lemma AbandonedHaveTasks(s: State)
    requires Inv(s)
    ensures s.abandoned <= s.db.tasks.Keys
  {
  }

  /** A handler's task when the store fails it. */
  lemma HandlerStatus(s: State, a: Action, k: nat)
    requires Inv(s) && Stores(s, a) && OfHandler(a)
    ensures var db, t := ApplyAll(s.db, FirstOf(SectionOf(s, a).value.txs, k)), TaskOf(s, a);
      && (a.Send? ==> t !in s.db.tasks && t !in s.jobs && (if k == 0 then t !in db.tasks else t in db.tasks && db.tasks[t].status.Queued?))
      && (a.Confirm? ==> t in s.db.tasks && t !in s.jobs && t in db.tasks && db.tasks[t].status == if k == 0 then s.db.tasks[t].status else Queued)
      && (a.Cancel? ==> t in s.db.tasks && t in db.tasks && db.tasks[t].status == if t in s.jobs || k <= 1 then s.db.tasks[t].status else Cancelled)
      && (a.Cancel? && t in s.jobs ==> db == s.db)
      && (k == 0 ==> db == s.db)
  {
    hide Inv, Base, ApplyAll, HasActive;
    var txs := SectionOf(s, a).value.txs;
    ApplyNone(s.db);
    if |txs| >= 1 {
      ApplyOne(s.db, txs[0]);
      assert FirstOf(txs, 1) == [txs[0]];
    }
    if |txs| == 2 {
      ApplyTwo(s.db, txs[0], txs[1]);
      assert FirstOf(txs, 2) == [txs[0], txs[1]];
    }
    assert FirstOf(txs, k) == if k == 0 then [] else if k == 1 || |txs| < 2 then FirstOf(txs, 1) else FirstOf(txs, 2);
  }

  lemma FaultKeepsInv(s: State, a: Action, k: nat, j: nat)
    requires Inv(s)
    ensures Inv(StepFault(s, a, k, j))
  {
    if Stores(s, a) {
      hide Inv, SectionOf, StepFault;
      if OfJob(a) {
        JobFaultKeepsInv(s, a, k, j);
      } else {
        HandlerFaultKeepsInv(s, a, k, j);
      }
    }
  }

  lemma StepKeepsInv(s: State, e: Event)
    requires Inv(s)
    ensures Inv(Step(s, e))
  {
    hide Inv, StepRun, StepFault, StepCrash;
    match e
    case Run(a) => RunKeepsInv(s, a);
    case Fault(a, k, j) => FaultKeepsInv(s, a, k, j);
    case Crash(a, k, j) => CrashKeepsInv(s, a, k, j);
  }

  // ---------- whole runs ----------

  /** The invariant holds in every reachable state. */
  lemma {:induction false} Reachable(run: seq<Event>)
    ensures Inv(Exec(run))
  {
    hide Inv, Step;
    if run == [] {
      InitIsFine();
    } else {
      Reachable(run[..|run| - 1]);
      StepKeepsInv(Exec(run[..|run| - 1]), run[|run| - 1]);
    }
  }

  lemma InitIsFine()
    ensures Inv(INIT)
  {
  }

  lemma ExecStep(run: seq<Event>, e: Event)
    ensures Exec(run + [e]) == Step(Exec(run), e)
  {
    assert (run + [e])[..|run|] == run;
  }
}
