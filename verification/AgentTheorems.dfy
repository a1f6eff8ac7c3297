/** What holds over every run of the agent server: decisions, repeated decisions, cancels, timeouts,
    errors, shutdowns, errors of the store and crashes after any transaction, and restarts. */
module AgentTheorems {
  import opened AgentPlanning
  import opened AgentStore
  import opened AgentProtocol
  import opened AgentTransactions
  import opened AgentSections
  import opened AgentRecovery

  // ---------- how a plan and a task may change ----------

  /** A plan keeps its identity; a finished status is final; a plan whose write went out gets no other. */
  ghost predicate PlanLater(db: Db, db': Db, p: Pid) {
    && db.writes <= db'.writes
    && (p in db.plans ==>
        && p in db'.plans
        && db'.plans[p] == db.plans[p].(status := db'.plans[p].status)
        && (!db.plans[p].status.Live() ==> db'.plans[p].status == db.plans[p].status)
        && (PastWriting(db.plans[p].status) ==>
            PastWriting(db'.plans[p].status) && forall i :: |db.writes| <= i < |db'.writes| ==> db'.writes[i].plan != p))
  }

  /** A task keeps its identity; a finished status is final. */
  ghost predicate TaskLater(db: Db, db': Db, t: Tid) {
    t in db.tasks ==>
      && t in db'.tasks
      && db'.tasks[t] == db.tasks[t].(status := db'.tasks[t].status)
      && (!db.tasks[t].status.Active() ==> db'.tasks[t].status == db.tasks[t].status)
  }

  ghost predicate Later(db: Db, db': Db, p: Pid, t: Tid) {
    PlanLater(db, db', p) && TaskLater(db, db', t)
  }

  lemma LaterTwice(db: Db, mid: Db, db': Db, p: Pid, t: Tid)
    requires Later(db, mid, p, t) && Later(mid, db', p, t)
    ensures Later(db, db', p, t)
  {
  }

  /** When a transaction respects finished statuses and written plans. */
  predicate Respects(db: Db, tx: Tx, p: Pid) {
    match tx
    case AddTask(t, _) => t !in db.tasks
    case SetTask(t, status) => t in db.tasks ==> db.tasks[t].status.Active() || status == db.tasks[t].status
    case EndPlans(_) => true
    case AddPlan(q, _) => q !in db.plans
    case SetPlan(q, status) =>
      q in db.plans ==> (db.plans[q].status.Live() || status == db.plans[q].status) && (PastWriting(db.plans[q].status) ==> PastWriting(status))
    case Decide(q, _, _) =>
      q in db.plans ==> db.plans[q].status.Pending? && (db.plans[q].task in db.tasks ==> db.tasks[db.plans[q].task].status.Active())
    case Issue(w) => w.plan != p
  }

  lemma TxIsLater(db: Db, tx: Tx, p: Pid, t: Tid)
    requires Respects(db, tx, p)
    ensures Later(db, Apply(db, tx), p, t)
  {
  }

  lemma LaterStays(db: Db, p: Pid, t: Tid)
    ensures Later(db, db, p, t)
  {
  }

  lemma RecoverIsLater(db: Db, p: Pid, t: Tid)
    ensures Later(db, Recover(db), p, t)
  {
  }

  /** Both transactions of fail(). */
  lemma FailIsLater(db: Db, u: Tid, status: TaskStatus, p: Pid, t: Tid)
    requires u in db.tasks ==> db.tasks[u].status.Active()
    ensures Later(db, Apply(db, EndPlans(u)), p, t)
    ensures Later(db, Apply(Apply(db, EndPlans(u)), SetTask(u, status)), p, t)
  {
    hide Later;
    var db1 := Apply(db, EndPlans(u));
    TxIsLater(db, EndPlans(u), p, t);
    TxIsLater(db1, SetTask(u, status), p, t);
    LaterTwice(db, db1, Apply(db1, SetTask(u, status)), p, t);
  }

  /** Marking the plan and issuing its write: the plan was only approved before. */
  lemma IssueIsLater(db: Db, q: Pid, w: Write, p: Pid, t: Tid)
    requires q in db.plans && db.plans[q].status.Approved? && w.plan == q
    ensures Later(db, Apply(Apply(db, SetPlan(q, Executing)), Issue(w)), p, t)
  {
    var db1 := Apply(db, SetPlan(q, Executing));
    TxIsLater(db, SetPlan(q, Executing), p, t);
    if p != q {
      hide Later;
      TxIsLater(db1, Issue(w), p, t);
      LaterTwice(db, db1, Apply(db1, Issue(w)), p, t);
    }
  }

  lemma TaskSectionRespects(s: State, a: Action, p: Pid)
    requires Inv(s) && SectionOf(s, a).Some? && |SectionOf(s, a).value.txs| == 1
    requires a.Send? || a.Begin? || a.Interrupt? || a.Answer? || a.Finish?
    ensures Respects(s.db, SectionOf(s, a).value.txs[0], p)
  {
    hide Inv, Base, Completion, HasActive;
    if !a.Send? { TaskFacts(s, a.t); }
  }

  lemma PlanSectionRespects(s: State, a: Action, p: Pid)
    requires Inv(s) && SectionOf(s, a).Some? && |SectionOf(s, a).value.txs| == 1
    requires a.Confirm? || a.Preview? || a.Enter? || a.Recheck? || a.Returned? || a.Verified?
    ensures Respects(s.db, SectionOf(s, a).value.txs[0], p)
  {
    hide Inv, Base, Matches, Sound;
    if !a.Confirm? && !a.Preview? { TaskFacts(s, a.t); }
  }

  /** The one transaction of a section respects what is finished. */
  lemma SectionRespects(s: State, a: Action, p: Pid)
    requires Inv(s) && !a.Tick? && SectionOf(s, a).Some? && |SectionOf(s, a).value.txs| == 1
    ensures Respects(s.db, SectionOf(s, a).value.txs[0], p)
  {
    if a.Send? || a.Begin? || a.Interrupt? || a.Answer? || a.Finish? {
      hide *;
      TaskSectionRespects(s, a, p);
    } else if a.Confirm? || a.Preview? || a.Enter? || a.Recheck? || a.Returned? || a.Verified? {
      hide *;
      PlanSectionRespects(s, a, p);
    } else {
      hide Inv, Respects, Completion, HasActive, Matches, Sound;
    }
  }

  lemma SectionIsLater(s: State, a: Action, k: nat, p: Pid, t: Tid)
    requires Inv(s) && !a.Tick? && SectionOf(s, a).Some? && k <= |SectionOf(s, a).value.txs|
    ensures Later(s.db, ApplyAll(s.db, SectionOf(s, a).value.txs[..k]), p, t)
  {
    hide Inv, Later, Completion, HasActive, Matches, Sound, ApplyAll;
    var txs := SectionOf(s, a).value.txs;
    LaterStays(s.db, p, t);
    if k == 0 {
      assert txs[..0] == [];
      ApplyNone(s.db);
    } else if |txs| == 1 {
      assert txs[..1] == [txs[0]];
      ApplyOne(s.db, txs[0]);
      SectionRespects(s, a, p);
      TxIsLater(s.db, txs[0], p, t);
    } else {
      TwoAreLater(s, a, p, t);
      ApplyOne(s.db, txs[0]);
      ApplyTwo(s.db, txs[0], txs[1]);
      assert txs[..1] == [txs[0]] && txs[..2] == [txs[0], txs[1]];
    }
  }

  lemma TwoAreLater(s: State, a: Action, p: Pid, t: Tid)
    requires Inv(s) && !a.Tick? && SectionOf(s, a).Some? && |SectionOf(s, a).value.txs| == 2
    ensures var txs := SectionOf(s, a).value.txs;
      Later(s.db, Apply(s.db, txs[0]), p, t) && Later(s.db, Apply(Apply(s.db, txs[0]), txs[1]), p, t)
  {
    hide Inv, Base, Later, Completion, HasActive, Matches, Sound;
    match a
    case Cancel(u, _) => FailIsLater(s.db, u, Cancelled, p, t);
    case Stop(u) => TaskFacts(s, u); FailIsLater(s.db, u, Cancelled, p, t);
    case Raise(u) => TaskFacts(s, u); FailIsLater(s.db, u, Failed, p, t);
    case Resume(u, _) => TaskFacts(s, u); FailIsLater(s.db, u, Failed, p, t);
    case Enter(u, _) => TaskFacts(s, u); FailIsLater(s.db, u, Failed, p, t);
    case Recheck(u, permitted, seen) =>
      TaskFacts(s, u);
      var q := s.jobs[u].start.plan;
      if permitted && Matches(s.db.plans[q].payload, seen) {
        TxIsLater(s.db, SetPlan(q, Executing), p, t);
        IssueIsLater(s.db, q, SectionOf(s, a).value.txs[1].w, p, t);
      } else {
        FailIsLater(s.db, u, Failed, p, t);
      }
  }

  /** fail() after a section that began with the task still active. */
  lemma FailAfterIsLater(db: Db, db1: Db, u: Tid, p: Pid, t: Tid)
    requires Later(db, db1, p, t) && (u in db.tasks ==> db.tasks[u].status.Active())
    ensures Later(db, Apply(db1, EndPlans(u)), p, t)
    ensures Later(db, Apply(Apply(db1, EndPlans(u)), SetTask(u, Failed)), p, t)
  {
    var db2 := Apply(db1, EndPlans(u));
    TxIsLater(db1, EndPlans(u), p, t);
    LaterTwice(db, db1, db2, p, t);
    assert Apply(db2, SetTask(u, Failed)).plans == db2.plans && Apply(db2, SetTask(u, Failed)).writes == db2.writes;
  }

  /** However a section breaks off. */
  lemma UntilIsLater(s: State, a: Action, k: nat, j: nat, p: Pid, t: Tid)
    requires Inv(s) && Stores(s, a)
    ensures Later(s.db, ApplyAll(s.db, TxsUntil(s, a, k, j)), p, t)
  {
    hide Inv, Later, ApplyAll, SectionOf, Apply;
    var txs := SectionOf(s, a).value.txs;
    var n := if k <= |txs| then k else |txs|;
    assert FirstOf(txs, k) == txs[..n];
    SectionIsLater(s, a, n, p, t);
    var db1 := ApplyAll(s.db, txs[..n]);
    ApplyMore(s.db, txs[..n], if Caught(s, a) then FirstOf(FailTxs(a.t, Failed), j) else []);
    ApplyNone(db1);
    if Caught(s, a) {
      StatusUntil(s, a, 0);
      ApplyFail(db1, a.t, Failed, j);
      FailAfterIsLater(s.db, db1, a.t, p, t);
    }
  }

  lemma StepIsLater(s: State, e: Event, p: Pid, t: Tid)
    requires Inv(s)
    ensures Later(s.db, Step(s, e).db, p, t)
  {
    hide Inv, Later, ApplyAll, SectionOf, TxsUntil;
    LaterStays(s.db, p, t);
    var a := e.a;
    match e
    case Run(_) =>
      if a.Tick? || SectionOf(s, a).None? {
      } else {
        var txs := SectionOf(s, a).value.txs;
        assert txs[..|txs|] == txs;
        SectionIsLater(s, a, |txs|, p, t);
      }
    case Fault(_, k, j) =>
      if Stores(s, a) { UntilIsLater(s, a, k, j, p, t); }
    case Crash(_, k, j) =>
      var db1 := if Stores(s, a) then ApplyAll(s.db, TxsUntil(s, a, k, j)) else s.db;
      if Stores(s, a) { UntilIsLater(s, a, k, j, p, t); }
      RecoverIsLater(db1, p, t);
      LaterTwice(s.db, db1, Recover(db1), p, t);
  }

  lemma {:induction false} RunIsLater(run: seq<Event>, more: seq<Event>, p: Pid, t: Tid)
    ensures Later(Exec(run).db, Exec(run + more).db, p, t)
    decreases |more|
  {
    hide Exec, Step, Inv, Later;
    if more == [] {
      assert run + more == run;
      LaterStays(Exec(run).db, p, t);
    } else {
      var init, e := more[..|more| - 1], more[|more| - 1];
      assert run + more == (run + init) + [e];
      RunIsLater(run, init, p, t);
      ExecStep(run + init, e);
      Reachable(run + init);
      StepIsLater(Exec(run + init), e, p, t);
      LaterTwice(Exec(run).db, Exec(run + init).db, Exec(run + more).db, p, t);
    }
  }

  // ---------- the theorems ----------

  /** The external write is issued at most once for a plan. */
  lemma AtMostOneWritePerPlan(run: seq<Event>, i: nat, j: nat)
    requires i < |Exec(run).db.writes| && j < |Exec(run).db.writes|
    requires Exec(run).db.writes[i].plan == Exec(run).db.writes[j].plan
    ensures i == j
  {
    hide Exec;
    Reachable(run);
  }

  /** A plan whose write may have gone out is never written again, whatever happens; and it ends done,
      refused or unknown. */
  lemma NeverWrittenAgain(run: seq<Event>, more: seq<Event>, p: Pid)
    requires p in Exec(run).db.plans && PastWriting(Exec(run).db.plans[p].status)
    ensures Exec(run).db.writes <= Exec(run + more).db.writes
    ensures p in Exec(run + more).db.plans && PastWriting(Exec(run + more).db.plans[p].status)
    ensures forall i :: |Exec(run).db.writes| <= i < |Exec(run + more).db.writes| ==> Exec(run + more).db.writes[i].plan != p
  {
    hide Exec;
    RunIsLater(run, more, p, 0);
  }

  /** Who catches a plan mid-write: a crash, before its section commits anything; its job being stopped or
      failing; or an error of the store that its job answers with fail(), whose first transaction goes
      through. (If it does not, the plan stays as it is, with no job, until a cancel or a restart.) */
  predicate CatchesMidWrite(s: State, e: Event, t: Tid) {
    match e
    case Run(a) => (a == Stop(t) || a == Raise(t)) && SectionOf(s, a).Some?
    case Fault(a, k, j) => Stores(s, a) && OfJob(a) && a.t == t && (if Caught(s, a) then k == 0 && j >= 1 else k >= 1)
    case Crash(a, k, j) => !Stores(s, a) || k == 0
  }

  /** A plan caught mid-write is unknown. */
  lemma CaughtMidWriteIsUnknown(run: seq<Event>, e: Event, p: Pid)
    requires var s := Exec(run); p in s.db.plans && s.db.plans[p].status.Executing? && CatchesMidWrite(s, e, s.db.plans[p].task)
    ensures p in Exec(run + [e]).db.plans && Exec(run + [e]).db.plans[p].status == Unknown
  {
    hide Exec, Inv, ApplyAll;
    ExecStep(run, e);
    Reachable(run);
    var s := Exec(run);
    var t := s.db.plans[p].task;
    match e
    case Run(a) => ApplyTwo(s.db, EndPlans(t), SetTask(t, if a.Stop? then Cancelled else Failed));
    case Fault(a, k, j) =>
      hide SectionOf;
      FaultMidWrite(s, a, k, j, p);
    case Crash(a, k, j) =>
      hide SectionOf, TxsUntil, Recover;
      if Stores(s, a) { NothingCommitted(s, a, j, p); }
      RecoveredMidWrite(if Stores(s, a) then ApplyAll(s.db, TxsUntil(s, a, 0, j)) else s.db, p);
  }

  lemma FaultMidWrite(s: State, a: Action, k: nat, j: nat, p: Pid)
    requires Inv(s) && Stores(s, a) && OfJob(a) && IsOf(s.db, p, a.t) && s.db.plans[p].status.Executing?
    requires if Caught(s, a) then k == 0 && j >= 1 else k >= 1
    ensures var db := ApplyAll(s.db, TxsUntil(s, a, k, j)); p in db.plans && db.plans[p].status.Unknown?
  {
    hide Inv, ApplyAll, SectionOf, Completion, FailTxs;
    JobSections(s, a);
    var txs := SectionOf(s, a).value.txs;
    if Caught(s, a) {
      assert FirstOf(txs, 0) + FirstOf(FailTxs(a.t, Failed), j) == FirstOf(FailTxs(a.t, Failed), j);
      FailEnds(s.db, a.t, p, Failed, j);
    } else {
      var status := if txs == FailTxs(a.t, Failed) then Failed else Cancelled;
      assert FirstOf(txs, k) + [] == FirstOf(txs, k) && txs == FailTxs(a.t, status);
      FailEnds(s.db, a.t, p, status, k);
    }
  }

  lemma NothingCommitted(s: State, a: Action, j: nat, p: Pid)
    requires Stores(s, a) && p in s.db.plans && s.db.plans[p].status.Executing?
    ensures var db := ApplyAll(s.db, TxsUntil(s, a, 0, j)); p in db.plans && (db.plans[p].status.Executing? || db.plans[p].status.Unknown?)
  {
    hide ApplyAll, SectionOf;
    var txs := SectionOf(s, a).value.txs;
    assert FirstOf(txs, 0) == [];
    ApplyNone(s.db);
    if Caught(s, a) {
      assert [] + FirstOf(FailTxs(a.t, Failed), j) == FirstOf(FailTxs(a.t, Failed), j);
      ApplyFail(s.db, a.t, Failed, j);
    } else {
      assert TxsUntil(s, a, 0, j) == [];
    }
  }

  lemma RecoveredMidWrite(db: Db, p: Pid)
    requires p in db.plans && (db.plans[p].status.Executing? || db.plans[p].status.Unknown?)
    ensures p in Recover(db).plans && Recover(db).plans[p].status.Unknown?
  {
  }

  /** Finished plans stay as they are; no run revives a finished task, or changes its status. */
  lemma FinishedStaysFinished(run: seq<Event>, more: seq<Event>, p: Pid, t: Tid)
    ensures p in Exec(run).db.plans && !Exec(run).db.plans[p].status.Live() ==>
      p in Exec(run + more).db.plans && Exec(run + more).db.plans[p] == Exec(run).db.plans[p]
    ensures t in Exec(run).db.tasks && !Exec(run).db.tasks[t].status.Active() ==>
      t in Exec(run + more).db.tasks && Exec(run + more).db.tasks[t] == Exec(run).db.tasks[t]
  {
    hide Exec;
    RunIsLater(run, more, p, t);
  }

  /** The first i transactions of a section that breaks off are those of one that breaks off earlier. */
  lemma EarlierBreak(s: State, a: Action, k: nat, j: nat, i: nat) returns (k': nat, j': nat)
    requires Stores(s, a) && i <= |TxsUntil(s, a, k, j)|
    ensures TxsUntil(s, a, k, j)[..i] == TxsUntil(s, a, k', j') && i == k' + j'
    ensures k' <= k && k' <= |SectionOf(s, a).value.txs| && (i < |TxsUntil(s, a, k, j)| ==> j' < 2)
  {
    hide SectionOf;
    var n := |FirstOf(SectionOf(s, a).value.txs, k)|;
    k' := if i <= n then i else n;
    j' := i - k';
  }

  /** The transactions of a job's section that breaks off work on its own task. */
  predicate WorksOn(tx: Tx, t: Tid) {
    tx == EndPlans(t) || (tx.SetTask? && tx.t == t) || tx.AddPlan? || tx.SetPlan? || tx.Issue?
  }

  lemma JobTxs(s: State, a: Action, k: nat, j: nat, i: nat)
    requires Inv(s) && Stores(s, a) && OfJob(a) && i < |TxsUntil(s, a, k, j)|
    ensures WorksOn(TxsUntil(s, a, k, j)[i], a.t)
    ensures (a.Answer? || a.Finish?) && k >= 1 ==> i <= 2 && (i >= 1 ==> TxsUntil(s, a, k, j)[i] == if i == 1 then EndPlans(a.t) else SetTask(a.t, Failed))
    ensures IsFail(SectionOf(s, a).value.txs) ==> i <= 1
  {
    JobSections(s, a);
    if a.Answer? || a.Finish? { CaughtCompletion(s, a); }
    hide Inv, SectionOf, Completion;
    var txs, until := SectionOf(s, a).value.txs, TxsUntil(s, a, k, j);
    assert until[i] in FirstOf(txs, k) || until[i] in FailTxs(a.t, Failed);
    assert forall tx :: tx in FirstOf(txs, k) ==> tx in txs;
  }

  lemma OnlyItsTask(db: Db, tx: Tx, u: Tid, t: Tid)
    requires WorksOn(tx, u) && t in db.tasks
    ensures t in Apply(db, tx).tasks
    ensures t != u || !tx.SetTask? ==> Apply(db, tx).tasks[t] == db.tasks[t]
  {
  }

  /** No handler touches a finished task. */
  lemma HandlerTxs(s: State, a: Action, k: nat, j: nat, i: nat, t: Tid)
    requires Inv(s) && Stores(s, a) && OfHandler(a) && i < |TxsUntil(s, a, k, j)|
    requires var db := ApplyAll(s.db, TxsUntil(s, a, k, j)[..i]); t in db.tasks && !db.tasks[t].status.Active()
    ensures var db := ApplyAll(s.db, TxsUntil(s, a, k, j)[..i]);
      t in Apply(db, TxsUntil(s, a, k, j)[i]).tasks && Apply(db, TxsUntil(s, a, k, j)[i]).tasks[t] == db.tasks[t]
  {
    hide Inv, ApplyAll, HasActive;
    AtMostTwo(s, a);
    var txs := SectionOf(s, a).value.txs;
    assert TxsUntil(s, a, k, j) == FirstOf(txs, k);
    ApplyNone(s.db);
    if i == 0 {
      assert TxsUntil(s, a, k, j)[..0] == [];
    } else {
      assert TxsUntil(s, a, k, j)[..1] == [txs[0]];
      ApplyOne(s.db, txs[0]);
    }
  }

  /** Within a section that the store breaks off, transaction by transaction: a finished task is never made
      active again, and its status is overwritten in exactly one case: the job had just set its final
      status, the report of that could not be written, and fail() makes it failed. */
  lemma OverwrittenIff(s: State, a: Action, k: nat, j: nat, i: nat, t: Tid)
    requires Inv(s) && Stores(s, a) && i < |TxsUntil(s, a, k, j)|
    requires var db := ApplyAll(s.db, TxsUntil(s, a, k, j)[..i]); t in db.tasks && !db.tasks[t].status.Active()
    ensures var db, db' := ApplyAll(s.db, TxsUntil(s, a, k, j)[..i]), ApplyAll(s.db, TxsUntil(s, a, k, j)[..i + 1]);
      && t in db'.tasks && !db'.tasks[t].status.Active()
      && (db'.tasks[t] != db.tasks[t] <==> (a.Answer? || a.Finish?) && t == a.t && i == 2 && !db.tasks[t].status.Failed?)
      && (db'.tasks[t] != db.tasks[t] ==> db'.tasks[t] == db.tasks[t].(status := Failed))
  {
    hide Inv, ApplyAll, SectionOf;
    var txs := TxsUntil(s, a, k, j);
    var db := ApplyAll(s.db, txs[..i]);
    assert txs[..i + 1] == txs[..i] + [txs[i]];
    ApplyMore(s.db, txs[..i], [txs[i]]);
    ApplyOne(db, txs[i]);
    if OfJob(a) {
      JobTxs(s, a, k, j, i);
      OnlyItsTask(db, txs[i], a.t, t);
      if t == a.t {
        var k', j' := EarlierBreak(s, a, k, j, i);
        StatusInTheEnd(s, a, k', j');
        hide TxsUntil;
        assert (a.Answer? || a.Finish?) && k' >= 1;
      }
    } else {
      HandlerTxs(s, a, k, j, i, t);
    }
  }

  /** Every write that went out adds 1 to 20 distinct roles, exactly the previewed ones, to exactly the
      previewed employee; its plan was approved by the plan's own actor before it expired, and entered
      before it expired; and at the last read the person, the held roles, the role fields and their
      permissions were as previewed, each role enabled and none held. */
  lemma WritesAreSanctioned(run: seq<Event>, i: nat, x: RoleId)
    requires i < |Exec(run).db.writes|
    ensures var db := Exec(run).db;
      var w := db.writes[i];
      && w.plan in db.plans && w.plan in db.approvals
      && var plan, approval := db.plans[w.plan], db.approvals[w.plan];
        && w.employee == plan.payload.employee.id && w.roles == AddedIds(plan.payload)
        && 1 <= |w.roles| <= 20 && Ascending(w.roles)
        && approval.actor == plan.actor && approval.at < plan.expiresAt && w.enteredAt < plan.expiresAt
        && plan.payload.employee in w.seen.found
        && IdsOf(w.seen.before) == IdsOf(plan.payload.before)
        && (forall k :: 0 <= k < |plan.payload.added| ==> SameRole(plan.payload.added[k], w.seen))
        && (x in w.roles ==> x !in IdsOf(w.seen.before) && x in w.seen.catalog && w.seen.catalog[x].status == 1)
  {
    hide Exec;
    Reachable(run);
    var db := Exec(run).db;
    var w := db.writes[i];
    assert WriteOk(db, w);
    if x in w.roles { MatchingReadsLackTheRoles(db.plans[w.plan].payload, w.seen, x); }
  }

  /** A task that succeeded with a plan wrote it, exactly once. */
  lemma SucceededMeansWritten(run: seq<Event>, t: Tid, p: Pid)
    requires t in Exec(run).db.tasks && Exec(run).db.tasks[t].status.Succeeded? && IsOf(Exec(run).db, p, t)
    ensures var writes := Exec(run).db.writes;
      Exec(run).db.plans[p].status.Done? && exists i :: 0 <= i < |writes| && writes[i].plan == p && forall j :: 0 <= j < |writes| && writes[j].plan == p ==> j == i
  {
    hide Exec, WriteOk;
    Reachable(run);
    var db := Exec(run).db;
    assert RestOk(db, Exec(run).torn, t) && PlanOk(db, p);
    var i :| 0 <= i < |db.writes| && db.writes[i].plan == p;
    forall j | 0 <= j < |db.writes| && db.writes[j].plan == p ensures j == i {}
  }

  /** At most one task of a conversation is active. */
  lemma OneActiveTask(run: seq<Event>, t: Tid, u: Tid)
    requires var tasks := Exec(run).db.tasks;
      && t in tasks && u in tasks && tasks[t].conversation == tasks[u].conversation
      && tasks[t].status.Active() && tasks[u].status.Active()
    ensures t == u
  {
    hide Exec;
    Reachable(run);
  }

  /** Tasks and plans go together: a finished task has no live plan; a waiting one has its pending plan
      exactly unless it was torn; a queued or running one has a job exactly unless it was abandoned. */
  lemma TasksAndPlansCoupled(run: seq<Event>, t: Tid)
    requires t in Exec(run).db.tasks
    ensures var s := Exec(run);
      var status := s.db.tasks[t].status;
      && (!status.Active() ==> forall p :: IsOf(s.db, p, t) ==> !s.db.plans[p].status.Live())
      && (status.Waiting? ==> ((exists p :: PlanIs(s.db, p, t, Pending)) <==> t !in s.torn))
      && (status.Queued? || status.Running? ==> (Idle(s, t) <==> t in s.abandoned))
      && forall p, q :: IsOf(s.db, p, t) && IsOf(s.db, q, t) ==> p == q
  {
    hide Exec, Inv;
    var s := Exec(run);
    Reachable(run);
    TaskFacts(s, t);
    if s.db.tasks[t].status.Waiting? {
      var p :| IsOf(s.db, p, t);
      assert t !in s.torn ==> PlanIs(s.db, p, t, Pending);
    }
  }

  /** The way out of both: its user cancels it again, and the store answers. */
  lemma CancelRepairs(run: seq<Event>, t: Tid)
    requires var s := Exec(run); t in s.db.tasks && s.db.tasks[t].status.Active() && t !in s.jobs
    ensures var s := Exec(run);
      var s' := Exec(run + [Run(Cancel(t, s.db.tasks[t].actor))]);
      && t in s'.db.tasks && s'.db.tasks[t] == s.db.tasks[t].(status := Cancelled)
      && forall p :: IsOf(s'.db, p, t) ==> !s'.db.plans[p].status.Live()
  {
    hide Exec, Inv, ApplyAll;
    var s := Exec(run);
    ExecStep(run, Run(Cancel(t, s.db.tasks[t].actor)));
    ApplyTwo(s.db, EndPlans(t), SetTask(t, Cancelled));
  }

  /** From any crash point, recovery leaves no job, no queued or running task, no approved or executing
      plan, and pending plans only where a task waits for them. */
  lemma RecoveryRepairs(run: seq<Event>, a: Action, k: nat, j: nat, t: Tid, p: Pid)
    ensures var s := Exec(run + [Crash(a, k, j)]);
      && s.jobs == map[]
      && (t in s.db.tasks ==> !s.db.tasks[t].status.Queued? && !s.db.tasks[t].status.Running?)
      && (p in s.db.plans ==> !s.db.plans[p].status.Approved? && !s.db.plans[p].status.Executing?)
      && (p in s.db.plans && s.db.plans[p].status.Pending? ==> s.db.plans[p].task in s.db.tasks && s.db.tasks[s.db.plans[p].task].status.Waiting?)
  {
    hide Exec, Inv, ApplyAll, SectionOf, TxsUntil, Tears;
    ExecStep(run, Crash(a, k, j));
    Reachable(run + [Crash(a, k, j)]);
    var s := Exec(run + [Crash(a, k, j)]);
    if p in s.db.plans {
      PlanOwner(s, p);
      TaskFacts(s, s.db.plans[p].task);
      assert IsOf(s.db, p, s.db.plans[p].task);
    }
  }

  lemma PlanOwner(s: State, p: Pid)
    requires Inv(s) && p in s.db.plans
    ensures s.db.plans[p].task in s.db.tasks
  {
    assert PlanOk(s.db, p);
  }
}
