/** What the statuses mean: which answer of the outside makes a plan done or refused, and which last
    status a task gets from its plan. */
module AgentVerdicts {
  import opened AgentPlanning
  import opened AgentStore
  import opened AgentProtocol
  import opened AgentTransactions
  import opened AgentSections
  import opened AgentRecovery
  import opened AgentTheorems

  predicate Has(plans: Plans, p: Pid, status: PlanStatus) {
    p in plans && plans[p].status == status
  }

  // ---------- where a plan gets done or refused ----------

  /** Only a transaction that says so makes a plan done, or refused. */
  lemma {:induction false} SaidBySomeTx(db: Db, txs: seq<Tx>, p: Pid, status: PlanStatus) returns (i: nat)
    requires status.Done? || status.Refusal?
    requires Has(ApplyAll(db, txs).plans, p, status) && !Has(db.plans, p, status)
    ensures i < |txs| && (txs[i] == SetPlan(p, status) || (txs[i].AddPlan? && txs[i].plan.status == status))
    decreases |txs|
  {
    var mid := Apply(db, txs[0]);
    if Has(mid.plans, p, status) {
      i := 0;
    } else {
      i := SaidBySomeTx(mid, txs[1..], p, status);
      i := i + 1;
    }
  }

  /** The answer that makes a plan done: its roles read back and confirmed. The answer that makes it
      refused: an error that says the write was not accepted. */
  predicate Answers(s: State, a: Action, p: Pid, status: PlanStatus) {
    && p in s.db.plans && s.db.plans[p].status.Executing?
    && (if status.Done? then a == Verified(s.db.plans[p].task, Confirmed)
        else a.Returned? && a.t == s.db.plans[p].task && a.reply.Error? && a.reply.status in {400, 401, 403, 404})
  }

  lemma SectionAnswers(s: State, a: Action, p: Pid, status: PlanStatus, i: nat)
    requires Inv(s) && !a.Tick? && SectionOf(s, a).Some? && (status.Done? || status.Refusal?)
    requires i < |SectionOf(s, a).value.txs|
    requires var tx := SectionOf(s, a).value.txs[i]; tx == SetPlan(p, status) || (tx.AddPlan? && tx.plan.status == status)
    ensures Answers(s, a, p, status)
  {
    hide Inv, Base, Completion, HasActive, Matches, Sound, AddedIds;
    if OfJob(a) { TaskFacts(s, a.t); }
  }

  /** A step that makes a plan done, or refused, brings just that answer. */
  lemma OnlyAnswersSettle(s: State, e: Event, p: Pid, status: PlanStatus)
    requires Inv(s) && (status.Done? || status.Refusal?)
    requires Has(Step(s, e).db.plans, p, status) && !Has(s.db.plans, p, status)
    ensures Answers(s, e.a, p, status)
  {
    hide Inv, ApplyAll, SectionOf, Answers;
    var a := e.a;
    if e.Run? {
      if !a.Tick? && SectionOf(s, a).Some? {
        var i := SaidBySomeTx(s.db, SectionOf(s, a).value.txs, p, status);
        SectionAnswers(s, a, p, status, i);
      }
    } else {
      var k, j := e.k, e.j;
      if Stores(s, a) {
        if e.Crash? { RecoverSettlesNothing(ApplyAll(s.db, TxsUntil(s, a, k, j)), p, status); }
        var i := SaidBySomeTx(s.db, TxsUntil(s, a, k, j), p, status);
        SaidBySection(s, a, k, j, p, status, i);
        SectionAnswers(s, a, p, status, i);
      } else if e.Crash? {
        RecoverSettlesNothing(s.db, p, status);
      }
    }
  }

  lemma SaidBySection(s: State, a: Action, k: nat, j: nat, p: Pid, status: PlanStatus, i: nat)
    requires Stores(s, a) && i < |TxsUntil(s, a, k, j)| && (TxsUntil(s, a, k, j)[i].SetPlan? || TxsUntil(s, a, k, j)[i].AddPlan?)
    ensures i < |SectionOf(s, a).value.txs| && TxsUntil(s, a, k, j)[i] == SectionOf(s, a).value.txs[i]
  {
    hide SectionOf;
  }

  lemma RecoverSettlesNothing(db: Db, p: Pid, status: PlanStatus)
    requires status.Done? || status.Refusal?
    ensures Has(Recover(db).plans, p, status) ==> Has(db.plans, p, status)
  {
  }

  /** A plan that is done had its roles read back and confirmed, while it was executing; a refused one had
      its write answered with such an error. */
  lemma {:induction false} SettledWasAnswered(run: seq<Event>, p: Pid, status: PlanStatus) returns (k: nat)
    requires Has(Exec(run).db.plans, p, status) && (status.Done? || status.Refusal?)
    ensures k < |run| && Answers(Exec(run[..k]), run[k].a, p, status)
  {
    hide Exec, Step, Inv, Answers;
    if run == [] {
      NoPlansAtFirst();
    }
    var init, e := run[..|run| - 1], run[|run| - 1];
    assert run == init + [e];
    ExecStep(init, e);
    if Has(Exec(init).db.plans, p, status) {
      k := SettledWasAnswered(init, p, status);
      assert run[..k] == init[..k];
    } else {
      Reachable(init);
      OnlyAnswersSettle(Exec(init), e, p, status);
      k := |init|;
    }
  }

  lemma NoPlansAtFirst()
    ensures Exec([]).db.plans == map[]
  {
  }

  // ---------- what a task ends with ----------

  /** The last status of a task whose graph ran to its end: succeeded with its plan done, cancelled with its
      plan rejected, failed with any other; and succeeded without a plan. */
  lemma LastStatus(run: seq<Event>, t: Tid, p: Pid)
    requires var s := Exec(run); At(s, t, Finishing) && IsOf(s.db, p, t)
    ensures var s := Exec(run);
      var plan, s' := s.db.plans[p].status, Exec(run + [Run(Finish(t))]);
      && t in s'.db.tasks
      && s'.db.tasks[t].status == (if plan.Done? then Succeeded else if plan.Rejected? then Cancelled else Failed)
      && (plan.Done? || plan.Rejected? || plan.Refusal? || plan.Unknown? || plan.Conflict? || plan.Expired?)
  {
    hide Exec, Inv, ApplyAll, Base;
    var s := Exec(run);
    Reachable(run);
    TaskFacts(s, t);
    ExecStep(run, Run(Finish(t)));
    ApplyOne(s.db, SetTask(t, Completion(s.db.plans, t)));
    OnlyPlan(s.db, s.torn, p, s.jobs[t].start.plan, t);
    CompletionOfOne(s.db, s.torn, t, p);
  }

  lemma CompletionOfOne(db: Db, torn: set<Tid>, t: Tid, p: Pid)
    requires Base(db, torn) && IsOf(db, p, t) && !db.plans[p].status.Live() && !db.plans[p].status.Dropped?
    ensures var plan := db.plans[p].status;
      Completion(db.plans, t) == if plan.Done? then Succeeded else if plan.Rejected? then Cancelled else Failed
  {
    hide Base;
    forall q | IsOf(db, q, t) ensures q == p { OnlyPlan(db, torn, q, p, t); }
    assert forall q :: q in db.plans && db.plans[q].task == t ==> IsOf(db, q, t);
    assert db.plans[p].task == t;
  }

  lemma AnswerSucceeds(run: seq<Event>, t: Tid)
    requires At(Exec(run), t, Thinking)
    ensures var s' := Exec(run + [Run(Answer(t))]); t in s'.db.tasks && s'.db.tasks[t].status == Succeeded
  {
    hide Exec, Inv, ApplyAll, Base;
    var s := Exec(run);
    Reachable(run);
    TaskFacts(s, t);
    ExecStep(run, Run(Answer(t)));
    ApplyOne(s.db, SetTask(t, Completion(s.db.plans, t)));
    assert forall q :: q in s.db.plans && s.db.plans[q].task == t ==> IsOf(s.db, q, t);
  }

  /** A job that is stopped leaves its task cancelled, one that fails leaves it failed; its plan is unknown
      if it was being written, cancelled if it was pending or approved, and else as it was. */
  lemma EndedEarly(run: seq<Event>, t: Tid, stopped: bool, p: Pid)
    requires var s := Exec(run); t in s.jobs && !s.jobs[t].pc.Fresh? && !s.jobs[t].pc.Ended? && s.jobs[t].stopping == stopped
    ensures var s, s' := Exec(run), Exec(run + [Run(if stopped then Stop(t) else Raise(t))]);
      && t in s'.db.tasks && s'.db.tasks[t].status == (if stopped then Cancelled else Failed)
      && (p in s.db.plans ==> p in s'.db.plans)
      && (p in s.db.plans && s.db.plans[p].task != t ==> s'.db.plans[p] == s.db.plans[p])
      && (p in s.db.plans && s.db.plans[p].task == t && s.db.plans[p].status.Executing? ==> s'.db.plans[p].status.Unknown?)
      && (p in s.db.plans && s.db.plans[p].task == t && (s.db.plans[p].status.Pending? || s.db.plans[p].status.Approved?) ==> s'.db.plans[p].status.Dropped?)
      && (p in s.db.plans && !s.db.plans[p].status.Live() ==> s'.db.plans[p] == s.db.plans[p])
  {
    hide Exec, Inv, ApplyAll;
    var s := Exec(run);
    Reachable(run);
    TaskFacts(s, t);
    ExecStep(run, Run(if stopped then Stop(t) else Raise(t)));
    ApplyTwo(s.db, EndPlans(t), SetTask(t, if stopped then Cancelled else Failed));
  }

  /** What a restart makes of tasks and plans, status by status, when the process died between sections. */
  lemma Recovered(run: seq<Event>, t: Tid, p: Pid)
    ensures var s, s' := Exec(run), Exec(run + [Crash(Tick, 0, 0)]);
      && (t in s.db.tasks ==> t in s'.db.tasks)
      && (t in s.db.tasks && (s.db.tasks[t].status.Queued? || s.db.tasks[t].status.Running?) ==> s'.db.tasks[t].status.Failed?)
      && (t in s.db.tasks && !s.db.tasks[t].status.Queued? && !s.db.tasks[t].status.Running? ==> s'.db.tasks[t] == s.db.tasks[t])
      && (p in s.db.plans ==> p in s'.db.plans)
      && (p in s.db.plans && s.db.plans[p].status.Executing? ==> s'.db.plans[p].status.Unknown?)
      && (IsOf(s.db, p, t) && s.db.plans[p].status.Live() && Interrupted(s.db.tasks, t) && !s.db.plans[p].status.Executing? ==> s'.db.plans[p].status.Dropped?)
      && (IsOf(s.db, p, t) && s.db.plans[p].status.Pending? && t in s.db.tasks && s.db.tasks[t].status.Waiting? ==> s'.db.plans[p].status.Pending?)
      && (p in s.db.plans && !s.db.plans[p].status.Live() ==> s'.db.plans[p] == s.db.plans[p])
  {
    hide Exec;
    ExecStep(run, Crash(Tick, 0, 0));
  }

  /** A new plan is what was previewed, for the actor of that moment, pending, for so many seconds. */
  lemma PreviewSays(s: State, t: Tid, p: Pid, payload: Payload, actor: Actor, ttl: nat)
    requires At(s, t, Thinking) && Sound(payload) && p !in s.db.plans
    ensures var s' := Step(s, Run(Preview(t, p, payload, actor, ttl)));
      && p in s'.db.plans && s'.db.plans[p].task == t && s'.db.plans[p].actor == actor && s'.db.plans[p].payload == payload
      && s'.db.plans[p].status.Pending? && s'.db.plans[p].expiresAt == s.now + ttl
      && forall q :: q in s.db.plans ==> q in s'.db.plans && s'.db.plans[q] == s.db.plans[q]
  {
    hide Sound;
    ApplyOne(s.db, AddPlan(p, Plan(t, actor, payload, Pending, s.now + ttl)));
  }

  /** A shutdown asks every job that has not ended to stop, and does nothing else. */
  lemma ShutdownStops(s: State, t: Tid)
    ensures var s' := Step(s, Run(Shutdown));
      && s'.db == s.db && (t in s'.jobs <==> t in s.jobs)
      && (t in s.jobs && !s.jobs[t].pc.Ended? ==> s'.jobs[t] == s.jobs[t].(stopping := true))
      && (t in s.jobs && s.jobs[t].pc.Ended? ==> s'.jobs[t] == s.jobs[t])
  {
    ApplyNone(s.db);
  }
}
