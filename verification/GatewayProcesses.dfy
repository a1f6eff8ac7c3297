/** The gateway's own code paths, as they are written: the consumer's batch and claim loops, and the
    handshake with its replay. Each call on shared state is one step of the protocol machine, and
    between any two of them everybody else runs: `schedule` is what they do in each pause. */
module GatewayProcesses {
  import opened GatewayObjects
  import opened GatewayProtocol
  import opened GatewayConsumerSteps
  import opened GatewayConnectionSteps
  import opened GatewayTheorems

  // ---------- what the others cannot do ----------

  /** Steps of this consumer worker, and the crash of its process. */
  predicate ByWorker(a: Action, g: nat, w: Which) {
    match a
    case Read(h, _, _) => h == g && w.Reader?
    case Claim(h, _, _, _) => h == g && w.Claimer?
    case Skip(h, v, _) => h == g && v == w
    case Save(h, v, _) => h == g && v == w
    case XAck(h, v, _) => h == g && v == w
    case Get(h, v) => h == g && v == w
    case Send(h, v, _) => h == g && v == w
    case CloseSlow(h, v) => h == g && v == w
    case Crash(h) => h == g
    case _ => false
  }

  /** Steps of the handshake of this connection, and the crash of its process. */
  predicate ByHandshake(a: Action, g: nat, c: nat) {
    match a
    case ReadPending(d, _, _) => d == c
    case ReplayOne(d, _) => d == c
    case CloseOverflow(d) => d == c
    case Crash(h) => h == g
    case _ => false
  }

  /** The group moves forward only: no acknowledged entry comes back, no saved mark is lost. */
  ghost predicate Forward(s: State, s': State, g: nat) {
    && g < |s.gates| && g < |s'.gates|
    && s.stream <= s'.stream
    && s.gates[g].next <= s'.gates[g].next
    && s.gates[g].saved <= s'.gates[g].saved
    && forall i :: i < s.gates[g].next && i !in s.gates[g].pel ==> i !in s'.gates[g].pel
  }

  ghost predicate WorkerUntouched(s: State, s': State, g: nat, w: Which) {
    Forward(s, s', g) && s'.gates[g].Get(w) == s.gates[g].Get(w)
  }

  lemma ForwardTwice(s: State, m: State, s': State, g: nat)
    requires Forward(s, m, g) && Forward(m, s', g)
    ensures Forward(s, s', g)
  {
  }

  predicate OfConsumer(a: Action) {
    a.Read? || a.Claim? || a.Skip? || a.Save? || a.XAck? || a.Get? || a.Send? || a.CloseSlow?
  }

  predicate OfHub(a: Action) { a.Connect? || a.Unregister? || a.CloseAll? || a.Crash? }

  lemma OtherFetch(s: State, a: Action, g: nat, w: Which)
    requires g < |s.gates| && !ByWorker(a, g, w) && (a.Read? || a.Claim?)
    ensures WorkerUntouched(s, Step(s, a), g, w)
  {
  }

  lemma OtherSkip(s: State, a: Action, g: nat, w: Which)
    requires g < |s.gates| && !ByWorker(a, g, w) && a.Skip?
    ensures WorkerUntouched(s, Step(s, a), g, w)
  {
  }

  lemma OtherSave(s: State, a: Action, g: nat, w: Which)
    requires g < |s.gates| && !ByWorker(a, g, w) && a.Save?
    ensures WorkerUntouched(s, Step(s, a), g, w)
  {
  }

  lemma OtherXAck(s: State, a: Action, g: nat, w: Which)
    requires g < |s.gates| && !ByWorker(a, g, w) && a.XAck?
    ensures WorkerUntouched(s, Step(s, a), g, w)
  {
  }

  lemma OtherDelivery(s: State, a: Action, g: nat, w: Which)
    requires g < |s.gates| && !ByWorker(a, g, w) && (a.Get? || a.Send? || a.CloseSlow?)
    ensures WorkerUntouched(s, Step(s, a), g, w)
  {
    hide SendResultOf, AfterSend;
  }

  lemma OtherHubStep(s: State, a: Action, g: nat, w: Which)
    requires g < |s.gates| && !ByWorker(a, g, w) && OfHub(a)
    ensures WorkerUntouched(s, Step(s, a), g, w)
  {
  }

  lemma ConnStepKeepsGates(s: State, a: Action)
    requires !OfConsumer(a) && !OfHub(a)
    ensures s.gates <= Step(s, a).gates && s.stream <= Step(s, a).stream
  {
    hide IsPending, SendResultOf, AfterSend;
  }

  lemma OtherStep(s: State, a: Action, g: nat, w: Which)
    requires g < |s.gates| && !ByWorker(a, g, w)
    ensures WorkerUntouched(s, Step(s, a), g, w)
  {
    hide Step, ByWorker;
    if a.Read? || a.Claim? {
      OtherFetch(s, a, g, w);
    } else if a.Skip? {
      OtherSkip(s, a, g, w);
    } else if a.Save? {
      OtherSave(s, a, g, w);
    } else if a.XAck? {
      OtherXAck(s, a, g, w);
    } else if a.Get? || a.Send? || a.CloseSlow? {
      OtherDelivery(s, a, g, w);
    } else if OfHub(a) {
      OtherHubStep(s, a, g, w);
    } else {
      ConnStepKeepsGates(s, a);
    }
  }

  lemma {:induction false} OthersSteps(s: State, more: seq<Action>, g: nat, w: Which)
    requires g < |s.gates| && forall a :: a in more ==> !ByWorker(a, g, w)
    ensures WorkerUntouched(s, After(s, more), g, w)
    decreases |more|
  {
    hide Step;
    if more != [] {
      OtherStep(s, more[0], g, w);
      OthersSteps(Step(s, more[0]), more[1..], g, w);
    }
  }

  lemma ForwardKeeps(s: State, s': State, g: nat, i: nat)
    requires Forward(s, s', g) && i < |s.stream|
    ensures i < |s'.stream| && s'.stream[i] == s.stream[i]
    ensures i in s.gates[g].saved ==> i in s'.gates[g].saved
    ensures i < s.gates[g].next ==> i < s'.gates[g].next && (i !in s.gates[g].pel ==> i !in s'.gates[g].pel)
  {
  }

  // ---------- what the worker's own steps do ----------

  predicate WorkerAt(s: State, g: nat, w: Which, i: nat, rest: seq<nat>, phase: Phase) {
    g < |s.gates| && i < |s.stream| && s.gates[g].Get(w) == Worker([i] + rest, phase)
  }

  predicate Through(s: State, g: nat, w: Which, rest: seq<nat>) {
    g < |s.gates| && s.gates[g].Get(w) == Worker(rest, Saving)
  }

  lemma SkipDoes(s: State, g: nat, w: Which, i: nat, rest: seq<nat>, o: Outcome)
    requires WorkerAt(s, g, w, i, rest, Saving) && !s.stream[i].WellFormed()
    ensures var s' := Step(s, Skip(g, w, o));
      Forward(s, s', g) && Through(s', g, w, rest) && (o.Success? ==> i !in s'.gates[g].pel)
  {
    assert ([i] + rest)[1..] == rest;
  }

  lemma SaveDoes(s: State, g: nat, w: Which, i: nat, rest: seq<nat>, o: Outcome)
    requires WorkerAt(s, g, w, i, rest, Saving) && s.stream[i].WellFormed()
    ensures var s' := Step(s, Save(g, w, o));
      && Forward(s, s', g)
      && (if o.Success? then WorkerAt(s', g, w, i, rest, Acking) && i in s'.gates[g].saved else Through(s', g, w, rest))
  {
    assert ([i] + rest)[1..] == rest;
  }

  lemma XAckDoes(s: State, g: nat, w: Which, i: nat, rest: seq<nat>, o: Outcome)
    requires WorkerAt(s, g, w, i, rest, Acking)
    ensures var s' := Step(s, XAck(g, w, o));
      Forward(s, s', g) && WorkerAt(s', g, w, i, rest, Getting) && (o.Success? ==> i !in s'.gates[g].pel)
  {
  }

  lemma GetDoes(s: State, g: nat, w: Which, i: nat, rest: seq<nat>)
    requires WorkerAt(s, g, w, i, rest, Getting)
    ensures var s' := Step(s, Get(g, w));
      && Forward(s, s', g)
      && (Through(s', g, w, rest) || exists c :: WorkerAt(s', g, w, i, rest, Sending(c)))
      && (Through(s', g, w, rest) <==> s.stream[i].target !in s.gates[g].hub)
      && (s.stream[i].target in s.gates[g].hub ==> WorkerAt(s', g, w, i, rest, Sending(s.gates[g].hub[s.stream[i].target])))
  {
    assert ([i] + rest)[1..] == rest;
    var t := s.stream[i].target;
    if t in s.gates[g].hub { assert WorkerAt(Step(s, Get(g, w)), g, w, i, rest, Sending(s.gates[g].hub[t])); }
  }

  lemma SendDoes(s: State, g: nat, w: Which, i: nat, rest: seq<nat>, c: nat, late: bool)
    requires WorkerAt(s, g, w, i, rest, Sending(c)) && c < |s.conns|
    ensures var s' := Step(s, Send(g, w, late));
      && Forward(s, s', g)
      && (if SendResultOf(s.conns[c].pipe, late).QueueFull? then WorkerAt(s', g, w, i, rest, Overflowed(c)) else Through(s', g, w, rest))
      && |s'.conns| == |s.conns|
  {
    assert ([i] + rest)[1..] == rest;
  }

  /** The connection the hub knew at first has been handed the event, or is closed. */
  predicate Pushed(s: State, s': State, g: nat, i: nat)
    requires g < |s.gates| && i < |s.stream|
  {
    var e := s.stream[i];
    e.target in s.gates[g].hub ==>
      var c := s.gates[g].hub[e.target]; c < |s'.conns| && (s'.conns[c].pipe.closed || Handed(s', c, e))
  }

  /** A push that is not refused as too slow hands over the event, or finds the connection closed. */
  lemma PushDoes(s: State, g: nat, w: Which, c: nat, late: bool)
    requires Busy(s, g, w) && PhaseOf(s, g, w) == Sending(c) && c < |s.conns|
    ensures var s' := Step(s, Send(g, w, late));
      |s'.conns| == |s.conns| && (!SendResultOf(s.conns[c].pipe, late).QueueFull? ==> s'.conns[c].pipe.closed || Handed(s', c, s.stream[Head(s, g, w)]))
  {
    PushHandsOver(s, g, w, late);
    var pipe, s' := s.conns[c].pipe, Step(s, Send(g, w, late));
    if (!pipe.closed || late) && |pipe.queue| < pipe.capacity {
      assert Tells(s'.conns[c].pipe.handed[|pipe.handed|], s.stream[Head(s, g, w)]);
    }
  }

  lemma CloseSlowDoes(s: State, g: nat, w: Which, i: nat, rest: seq<nat>, c: nat)
    requires WorkerAt(s, g, w, i, rest, Overflowed(c)) && c < |s.conns|
    ensures var s' := Step(s, CloseSlow(g, w));
      Forward(s, s', g) && Through(s', g, w, rest) && |s'.conns| == |s.conns| && s'.conns[c].pipe.closed
  {
    assert ([i] + rest)[1..] == rest;
  }

  lemma WorkerHead(s: State, g: nat, w: Which, i: nat, rest: seq<nat>, phase: Phase)
    requires WorkerAt(s, g, w, i, rest, phase)
    ensures g < |s.gates| && i < |s.stream| && Busy(s, g, w) && Head(s, g, w) == i && PhaseOf(s, g, w) == phase
  {
  }

  lemma EntryWasRead(run: seq<Action>, g: nat, w: Which, i: nat, rest: seq<nat>, phase: Phase)
    requires WorkerAt(Exec(run), g, w, i, rest, phase)
    ensures i < Exec(run).gates[g].next
  {
    hide Exec, Inv, Published, HasId;
    Reachable(run);
    GateFacts(Exec(run), g);
    assert i in Exec(run).gates[g].Get(w).todo;
  }

  lemma BatchWasRead(run: seq<Action>, g: nat, w: Which, batch: seq<nat>)
    requires Through(Exec(run), g, w, batch)
    ensures g < |Exec(run).gates|
    ensures forall i :: i in batch ==> i < Exec(run).gates[g].next && i < |Exec(run).stream|
  {
    hide Exec, Inv, Published, HasId;
    Reachable(run);
    GateFacts(Exec(run), g);
    forall i | i in batch ensures i < Exec(run).gates[g].next { assert i in Exec(run).gates[g].Get(w).todo; }
  }

  lemma BatchHead(s: State, g: nat, w: Which, batch: seq<nat>, k: nat)
    requires k < |batch| && batch[k] < |s.stream| && Through(s, g, w, batch[k..])
    ensures WorkerAt(s, g, w, batch[k], batch[k + 1..], Saving)
  {
    assert batch[k..] == [batch[k]] + batch[k + 1..];
  }

  lemma ForwardStays(s: State, g: nat)
    requires g < |s.gates|
    ensures Forward(s, s, g)
  {
  }

  /** The entries the group reads next: where they start and how many, at most `count`. */
  function Unread(s: State, g: nat, count: nat): (r: (nat, nat))
    requires g < |s.gates|
  {
    var from := if s.gates[g].next < s.trimmed then s.trimmed else s.gates[g].next;
    (from, if from + count <= |s.stream| then count else if from <= |s.stream| then |s.stream| - from else 0)
  }

  lemma ReadDoes(run: seq<Action>, g: nat, count: nat, answered: bool)
    requires Through(Exec(run), g, Reader, [])
    ensures var s, (from, n) := Exec(run), Unread(Exec(run), g, count);
      var s' := Step(s, Read(g, n, answered));
      && Forward(s, s', g) && s'.gates[g].next == from + n
      && Through(s', g, Reader, if answered then Range(from, n) else [])
  {
    hide Exec, Published, HasId, StoreOk, ConnOk, Covered, HubOk;
    Reachable(run);
    assert GateOk(Exec(run), g);
  }

  lemma ForwardNext(s: State, s': State, g: nat)
    requires Forward(s, s', g)
    ensures s.gates[g].next <= s'.gates[g].next
  {
  }

  lemma PendingWasRead(run: seq<Action>, g: nat)
    requires g < |Exec(run).gates|
    ensures forall i :: i in Exec(run).gates[g].pel ==> i < Exec(run).gates[g].next && i < |Exec(run).stream|
  {
    hide Exec, Inv, Published, HasId;
    Reachable(run);
    GateFacts(Exec(run), g);
  }

  lemma ClaimDoes(s: State, g: nat, batch: seq<nat>, gone: set<nat>, answered: bool)
    requires Through(s, g, Claimer, [])
    requires (forall i :: i in batch ==> i in s.gates[g].pel) && forall i :: i in gone ==> i < s.trimmed
    ensures var s' := Step(s, Claim(g, batch, gone, answered));
      && Forward(s, s', g)
      && (forall i :: i in gone ==> i !in s'.gates[g].pel)
      && Through(s', g, Claimer, if answered then batch else [])
  {
  }

  /** A worker that is sending holds a connection that exists. */
  lemma HeldConnection(run: seq<Action>, g: nat, w: Which, i: nat, rest: seq<nat>, c: nat)
    requires WorkerAt(Exec(run), g, w, i, rest, Sending(c)) || WorkerAt(Exec(run), g, w, i, rest, Overflowed(c))
    ensures c < |Exec(run).conns|
  {
    hide Exec, Inv, Published, HasId;
    Reachable(run);
    GateFacts(Exec(run), g);
  }

  function Other(w: Which): Which { if w.Reader? then Claimer else Reader }

  /** This worker has done its part: the session's current connection has the event, unless the other
      worker is busy with it too, a client acknowledged it, or its hash expired. */
  ghost predicate Delivered(s: State, g: nat, w: Which, i: nat, c: nat) {
    && g < |s.gates| && i < |s.stream|
    && (Current(s, g, s.stream[i].target, c) && !Dismissed(s, i) && !InProgress(s.gates[g].Get(Other(w)), i)
        ==> Handed(s, c, s.stream[i]) || HasNamesake(s.stream, i))
  }

  lemma CurrentIsThere(s: State, g: nat, i: nat, c: nat)
    requires i < |s.stream|
    ensures Current(s, g, s.stream[i].target, c) ==> c < |s.conns|
  {
  }

  lemma DeliveredWhenThrough(run: seq<Action>, g: nat, w: Which, i: nat, rest: seq<nat>, c: nat)
    requires Through(Exec(run), g, w, rest) && i in Exec(run).gates[g].saved && i < |Exec(run).stream|
    ensures Delivered(Exec(run), g, w, i, c)
  {
    hide Exec, Inv, HasId, Dismissed, Current, Handed, HasNamesake;
    CurrentIsThere(Exec(run), g, i, c);
    var s := Exec(run);
    if Current(s, g, s.stream[i].target, c) && !Dismissed(s, i) && !InProgress(s.gates[g].Get(Other(w)), i) {
      NoLostWakeUp(run, g, i, c);
    }
  }

  // ---------- what the others cannot do to a handshake ----------

  /** The connection keeps its place in the handshake; closed connections stay closed. */
  ghost predicate ShakeUntouched(s: State, s': State, g: nat, c: nat) {
    && g < |s.gates| <= |s'.gates| && c < |s.conns| <= |s'.conns|
    && s'.conns[c].shake == s.conns[c].shake
    && s'.conns[c].gate == s.conns[c].gate && s'.conns[c].session == s.conns[c].session
    && forall d: nat :: d < |s.conns| && s.conns[d].pipe.closed ==> s'.conns[d].pipe.closed
  }

  /** The connection is not the one the hub knows for the session. */
  predicate Replaced(s: State, g: nat, session: Session, d: nat) {
    g < |s.gates| && (session in s.gates[g].hub ==> s.gates[g].hub[session] != d)
  }

  predicate SameHubs(s: State, s': State) {
    |s'.gates| == |s.gates| && forall g: nat :: g < |s.gates| ==> s'.gates[g].hub == s.gates[g].hub
  }

  lemma WorkersKeepHubs(s: State, g: nat, w: Which, k: Worker)
    requires g < |s.gates|
    ensures SameHubs(s, SetWorker(s, g, w, k))
  {
  }

  lemma SavesKeepHubs(s: State, a: Action)
    requires a.Skip? || a.Save? || a.XAck?
    ensures SameHubs(s, Step(s, a))
  {
    hide SetWorker;
    var g, w := a.g, a.w;
    if Busy(s, g, w) {
      var marked := SetGate(s, g, s.gates[g].(saved := s.gates[g].saved + {Head(s, g, w)}));
      var acked := XAcked(s, g, Head(s, g, w), a.o);
      forall t: State, k | t.gates == s.gates || t.gates == marked.gates || t == acked
        ensures SameHubs(t, SetWorker(t, g, w, k))
      {
        WorkersKeepHubs(t, g, w, k);
      }
    }
  }

  lemma DeliveriesKeepHubs(s: State, a: Action)
    requires a.Read? || a.Claim? || a.Get? || a.Send? || a.CloseSlow?
    ensures SameHubs(s, Step(s, a))
  {
    hide SendResultOf, AfterSend;
  }

  /** Consumer workers add no instance and leave the hubs alone. */
  lemma ConsumersKeepHubs(s: State, a: Action, g: nat)
    requires OfConsumer(a) && g < |s.gates|
    ensures |Step(s, a).gates| == |s.gates| && Step(s, a).gates[g].hub == s.gates[g].hub
  {
    hide Step;
    if a.Skip? || a.Save? || a.XAck? { SavesKeepHubs(s, a); } else { DeliveriesKeepHubs(s, a); }
  }

  lemma ConsumersKeepShake(s: State, a: Action, g: nat, c: nat)
    requires g < |s.gates| && c < |s.conns| && OfConsumer(a)
    ensures ShakeUntouched(s, Step(s, a), g, c)
  {
    ConsumersKeepHubs(s, a, g);
    if !a.Send? && !a.CloseSlow? {
      ConsumersKeepConns(s, a);
      hide Step;
    }
  }

  lemma OtherKeepsShake(s: State, a: Action, g: nat, c: nat)
    requires g < |s.gates| && c < |s.conns| && s.conns[c].gate == g && !ByHandshake(a, g, c)
    ensures ShakeUntouched(s, Step(s, a), g, c)
  {
    hide IsPending;
    if OfConsumer(a) {
      ConsumersKeepShake(s, a, g, c);
      hide Step;
    }
  }

  /** Only a new connection enters the hub. */
  lemma ReplacedStays(s: State, a: Action, g: nat, session: Session, d: nat)
    requires Replaced(s, g, session, d) && d < |s.conns|
    ensures Replaced(Step(s, a), g, session, d)
  {
    if OfConsumer(a) {
      hide Step;
      ConsumersKeepHubs(s, a, g);
    } else if !OfHub(a) {
      hide Step;
      ConnStepKeepsGates(s, a);
    }
  }

  lemma {:induction false} OthersKeepShake(s: State, more: seq<Action>, g: nat, c: nat, session: Session, d: nat)
    requires g < |s.gates| && c < |s.conns| && s.conns[c].gate == g && d < |s.conns|
    requires forall a :: a in more ==> !ByHandshake(a, g, c)
    ensures ShakeUntouched(s, After(s, more), g, c)
    ensures Replaced(s, g, session, d) ==> Replaced(After(s, more), g, session, d)
    decreases |more|
  {
    hide Step, Replaced, ByHandshake;
    if more != [] {
      OtherKeepsShake(s, more[0], g, c);
      if Replaced(s, g, session, d) { ReplacedStays(s, more[0], g, session, d); }
      OthersKeepShake(Step(s, more[0]), more[1..], g, c, session, d);
    }
  }

  /** One step of the handshake of c leaves it at `shake`, and another connection d as it was. */
  ghost predicate ShakeMoves(s: State, s': State, g: nat, session: Session, c: nat, shake: Shake, d: nat) {
    && g < |s'.gates| && c < |s'.conns| && |s.conns| <= |s'.conns|
    && s'.conns[c].gate == g && s'.conns[c].session == session && s'.conns[c].shake == shake
    && (d < |s.conns| && s.conns[d].pipe.closed ==> s'.conns[d].pipe.closed)
    && (g < |s.gates| && Replaced(s, g, session, d) ==> Replaced(s', g, session, d))
  }

  ghost predicate ShakeAt(s: State, g: nat, session: Session, c: nat, shake: Shake) {
    g < |s.gates| && c < |s.conns| && s.conns[c].gate == g && s.conns[c].session == session && s.conns[c].shake == shake
  }

  lemma HubKnows(run: seq<Action>, g: nat, session: Session)
    requires g < |Exec(run).gates| && session in Exec(run).gates[g].hub
    ensures Exec(run).gates[g].hub[session] < |Exec(run).conns|
  {
    hide Exec, Inv;
    Reachable(run);
    GateFacts(Exec(run), g);
  }

  lemma ConnectDoes(s: State, g: nat, session: Session, queueSize: int)
    requires g < |s.gates|
    ensures var s' := Step(s, Connect(g, session, queueSize));
      && ShakeAt(s', g, session, |s.conns|, Registered) && |s'.conns| == |s.conns| + 1
      && forall d: nat :: d < |s.conns| ==> Replaced(s', g, session, d)
  {
  }

  lemma CloseDoes(s: State, g: nat, session: Session, c: nat, d: nat)
    requires ShakeAt(s, g, session, c, Registered) && d < |s.conns| && d != c
    ensures ShakeMoves(s, Step(s, Close(d)), g, session, c, Registered, d) && Step(s, Close(d)).conns[d].pipe.closed
  {
  }

  lemma UnregisterDoes(s: State, g: nat, session: Session, c: nat, d: nat)
    requires ShakeAt(s, g, session, c, Registered) && d < |s.conns|
    ensures ShakeMoves(s, Step(s, Unregister(d)), g, session, c, Registered, d)
  {
  }

  lemma ReadPendingDoes(s: State, g: nat, session: Session, c: nat, order: seq<Payload>, ok: bool, d: nat)
    requires ShakeAt(s, g, session, c, Registered) && (ok ==> IsPending(s.store, session, order))
    ensures ShakeMoves(s, Step(s, ReadPending(c, order, ok)), g, session, c, if ok then Replay(order) else Failed, d)
  {
    hide IsPending;
  }

  lemma ReplayOneDoes(s: State, g: nat, session: Session, c: nat, rest: seq<Payload>, late: bool, d: nat)
    requires ShakeAt(s, g, session, c, Replay(rest)) && rest != []
    ensures ShakeMoves(s, Step(s, ReplayOne(c, late)), g, session, c,
                       if SendResultOf(s.conns[c].pipe, late).QueueFull? then Overflow else Replay(rest[1..]), d)
  {
  }

  lemma CloseOverflowDoes(s: State, g: nat, session: Session, c: nat, d: nat)
    requires ShakeAt(s, g, session, c, Overflow)
    ensures ShakeMoves(s, Step(s, CloseOverflow(c)), g, session, c, Failed, d) && Step(s, CloseOverflow(c)).conns[c].pipe.closed
  {
  }

  /** Everything an instance shares with the others and with its own goroutines. */
  class Cluster {
    var s: State
    ghost var run: seq<Action>
    const schedule: nat -> seq<Action>
    var pauses: nat

    constructor (schedule: nat -> seq<Action>)
      ensures Ok() && s == INIT && this.schedule == schedule
    {
      s, run, pauses := INIT, [], 0;
      this.schedule := schedule;
      new;
      StartsEmpty();
    }

    /** A state some run of the protocol leads to. */
    ghost predicate Ok()
      reads this
    {
      s == Exec(run)
    }

    ghost predicate Leaves(g: nat, w: Which) {
      forall n, a :: a in schedule(n) ==> !ByWorker(a, g, w)
    }

    method Do(a: Action)
      requires Ok()
      modifies this
      ensures Ok() && s == Step(old(s), a) && run == old(run) + [a]
    {
      hide Step, Exec, Inv;
      ExecStep(run, a);
      s := Step(s, a);
      run := run + [a];
    }

    /** The others run. */
    method Pause()
      requires Ok()
      modifies this
      ensures Ok() && s == After(old(s), schedule(old(pauses)))
    {
      hide Step, Exec, Inv;
      var todo := schedule(pauses);
      pauses := pauses + 1;
      ghost var end := After(s, todo);
      while todo != []
        invariant Ok() && After(s, todo) == end
        decreases |todo|
      {
        Do(todo[0]);
        todo := todo[1..];
      }
    }

    /** The others run while this worker is at its entry. */
    method Wait(g: nat, w: Which, ghost i: nat, ghost rest: seq<nat>, ghost phase: Phase)
      requires Ok() && Leaves(g, w) && WorkerAt(s, g, w, i, rest, phase)
      modifies this
      ensures Ok() && Forward(old(s), s, g) && WorkerAt(s, g, w, i, rest, phase)
    {
      hide Step, Exec, Inv;
      OthersSteps(s, schedule(pauses), g, w);
      Pause();
    }

    /** Save, then acknowledge, then push; a failed save leaves the entry pending, a failed
        acknowledgement does not stop the push. When it returns, a well-formed event whose save
        succeeded has been handed to the session's current connection. */
    method Handle(g: nat, w: Which, ghost i: nat, ghost rest: seq<nat>, save: Outcome, ack: Outcome) returns (acked: bool)
      requires Ok() && Leaves(g, w) && WorkerAt(s, g, w, i, rest, Saving)
      modifies this
      ensures Ok() && Forward(old(s), s, g) && Through(s, g, w, rest)
      ensures acked <==> ack.Success? && (save.Success? || old(s).stream[i].eventId == "" || old(s).stream[i].target == "")
      ensures acked ==> i !in s.gates[g].pel
      ensures (save.Success? && old(s).stream[i].eventId != "" && old(s).stream[i].target != ""
               ==> i in s.gates[g].saved && forall c :: Delivered(s, g, w, i, c))
    {
      hide Step, Exec, Inv, WorkerAt, Forward, Through, Delivered;
      WorkerHead(s, g, w, i, rest, Saving);
      EntryWasRead(run, g, w, i, rest, Saving);
      var ev := s.stream[s.gates[g].Get(w).todo[0]];
      if !ev.WellFormed() {
        SkipDoes(s, g, w, i, rest, ack);
        Do(Skip(g, w, ack));
        return ack.Success?;
      }
      SaveDoes(s, g, w, i, rest, save);
      Do(Save(g, w, save));
      if !save.Success? {
        return false;
      }
      ghost var saved := s;
      ForwardKeeps(old(s), saved, g, i);
      Wait(g, w, i, rest, Acking);
      ForwardKeeps(saved, s, g, i);
      ForwardTwice(old(s), saved, s, g);
      ghost var waited := s;
      XAckDoes(s, g, w, i, rest, ack);
      Do(XAck(g, w, ack));
      ForwardTwice(old(s), waited, s, g);
      ForwardKeeps(waited, s, g, i);
      ghost var acknowledged := s;
      Wait(g, w, i, rest, Getting);
      Deliver(g, w, i, rest, acknowledged);
      ForwardKeeps(acknowledged, s, g, i);
      ForwardTwice(old(s), acknowledged, s, g);
      forall c ensures Delivered(s, g, w, i, c) { DeliveredWhenThrough(run, g, w, i, rest, c); }
      acked := ack.Success?;
    }

    /** Push to the connection the hub knows now, if any; a full queue closes it. In the end that connection
        has been handed just this event, or it is closed. */
    method Deliver(g: nat, w: Which, ghost i: nat, ghost rest: seq<nat>, ghost since: State)
      requires Ok() && Leaves(g, w) && WorkerAt(s, g, w, i, rest, Getting) && Forward(since, s, g)
      modifies this
      ensures Ok() && Forward(since, s, g) && Through(s, g, w, rest)
      ensures i < |old(s).stream| && g < |old(s).gates| && Pushed(old(s), s, g, i)
    {
      hide Step, Exec, Inv, WorkerAt, Forward, Through, SendResultOf, Handed;
      WorkerHead(s, g, w, i, rest, Getting);
      ghost var e := s.stream[i];
      var target := s.stream[s.gates[g].Get(w).todo[0]].target;
      var online := target in s.gates[g].hub;
      GetDoes(s, g, w, i, rest);
      ForwardTwice(since, s, Step(s, Get(g, w)), g);
      Do(Get(g, w));
      if !online {
        return;
      }
      ghost var c := old(s).gates[g].hub[target];
      ghost var found := s;
      Wait(g, w, i, rest, Sending(c));
      ForwardTwice(since, found, s, g);
      ForwardTwice(old(s), found, s, g);
      ForwardKeeps(old(s), s, g, i);
      HeldConnection(run, g, w, i, rest, c);
      var late: bool := *;
      SendDoes(s, g, w, i, rest, c, late);
      ForwardTwice(since, s, Step(s, Send(g, w, late)), g);
      WorkerHead(s, g, w, i, rest, Sending(c));
      PushDoes(s, g, w, c, late);
      var full := SendResultOf(s.conns[s.gates[g].Get(w).phase.c].pipe, late).QueueFull?;
      Do(Send(g, w, late));
      if full {
        ghost var stuck := s;
        Wait(g, w, i, rest, Overflowed(c));
        ForwardTwice(since, stuck, s, g);
        HeldConnection(run, g, w, i, rest, c);
        CloseSlowDoes(s, g, w, i, rest, c);
        ForwardTwice(since, s, Step(s, CloseSlow(g, w)), g);
        Do(CloseSlow(g, w));
      }
    }

    method AnyOutcome() returns (o: Outcome)
    {
      if * { o := Success; } else if * { o := FailedApplied; } else { o := FailedClean; }
    }

    /** One entry after another; `left` are those whose save or acknowledgement reported failure. */
    method HandleBatch(g: nat, w: Which, batch: seq<nat>) returns (left: set<nat>)
      requires Ok() && Leaves(g, w) && Through(s, g, w, batch)
      modifies this
      ensures Ok() && Forward(old(s), s, g) && Through(s, g, w, [])
      ensures forall i :: i in batch ==> i in left || i !in s.gates[g].pel
    {
      hide Step, Exec, Inv, Through, Forward, Delivered;
      BatchWasRead(run, g, w, batch);
      left := {};
      ForwardStays(s, g);
      assert batch[0..] == batch;
      for k := 0 to |batch|
        invariant Ok() && g < |s.gates| && Through(s, g, w, batch[k..]) && Forward(old(s), s, g)
        invariant forall i :: i in batch ==> i < s.gates[g].next && i < |s.stream|
        invariant forall j :: 0 <= j < k ==> batch[j] in left || batch[j] !in s.gates[g].pel
      {
        ghost var before := s;
        assert batch[k] in batch;
        BatchHead(s, g, w, batch, k);
        var save := AnyOutcome();
        var ack := AnyOutcome();
        var acked := Handle(g, w, batch[k], batch[k + 1..], save, ack);
        if !acked { left := left + {batch[k]}; }
        ForwardTwice(old(s), before, s, g);
        forall i | i in batch
          ensures i < s.gates[g].next && i < |s.stream| && (i !in before.gates[g].pel ==> i !in s.gates[g].pel)
        {
          ForwardKeeps(before, s, g, i);
        }
      }
      assert batch[|batch|..] == [];
    }

    /** One XREADGROUP of the read loop and its batch: the next entries the group has not seen. When the
        reply is lost they stay pending, for the claim loop. */
    method ReadOnce(g: nat, count: nat, answered: bool) returns (left: set<nat>)
      requires Ok() && Leaves(g, Reader) && Through(s, g, Reader, [])
      modifies this
      ensures Ok() && Forward(old(s), s, g) && Through(s, g, Reader, [])
      ensures var from := if old(s).gates[g].next < old(s).trimmed then old(s).trimmed else old(s).gates[g].next;
        var unread := if from <= |old(s).stream| then |old(s).stream| - from else 0;
        var n := if count < unread then count else unread;
        && from + n <= s.gates[g].next
        && (answered ==> forall i :: from <= i < from + n ==> i in left || i !in s.gates[g].pel)
    {
      hide Step, Exec, Inv, Forward;
      var (from, n) := Unread(s, g, count);
      ReadDoes(run, g, count, answered);
      Do(Read(g, n, answered));
      left := {};
      if answered {
        ghost var before := s;
        left := HandleBatch(g, Reader, Range(from, n));
        ForwardTwice(old(s), before, s, g);
        ForwardNext(before, s, g);
        forall i | from <= i < from + n ensures i in Range(from, n) { assert Range(from, n)[i - from] == i; }
      }
    }

    /** What XAUTOCLAIM answers from a start: the idle entries of a stretch of the pending list, those
        found trimmed, those too young, and where to go on (0 at the end). */
    method ScanPending(g: nat, start: nat) returns (batch: seq<nat>, gone: set<nat>, young: set<nat>, next: nat)
      requires g < |s.gates|
      ensures forall i :: i in batch ==> i in s.gates[g].pel
      ensures forall i :: i in gone ==> i < s.trimmed
      ensures next == 0 || next > start
      ensures forall i :: i in s.gates[g].pel && i >= start && (next == 0 || i < next) ==> i in batch || i in gone || i in young
    {
      batch, gone, young, next := [], {}, {}, 0;
      var further: int := *;
      if further > start { next := further; }
      var todo := s.gates[g].pel;
      while todo != {}
        invariant todo <= s.gates[g].pel
        invariant forall i :: i in batch ==> i in s.gates[g].pel
        invariant forall i :: i in gone ==> i < s.trimmed
        invariant forall i :: i in s.gates[g].pel && i !in todo && i >= start && (next == 0 || i < next) ==> i in batch || i in gone || i in young
        decreases todo
      {
        var i :| i in todo;
        todo := todo - {i};
        if i >= start && (next == 0 || i < next) {
          if i < s.trimmed {
            gone := gone + {i};
          } else if * {
            batch := batch + [i];
          } else {
            young := young + {i};
          }
        }
      }
    }

    /** The claim loop's pass: claim a stretch, handle what was claimed, go on from where the answer
        says. When it comes to the end of the list, every entry pending at the start has been handled,
        or acknowledged otherwise, or was too young, or is left over from a failure. */
    method ClaimPending(g: nat, rounds: nat) returns (left: set<nat>, young: set<nat>, complete: bool)
      requires Ok() && Leaves(g, Claimer) && Through(s, g, Claimer, [])
      modifies this
      ensures Ok() && Forward(old(s), s, g) && Through(s, g, Claimer, [])
      ensures complete ==> forall i :: i in old(s).gates[g].pel ==> i in left || i in young || i !in s.gates[g].pel
    {
      hide Step, Exec, Inv, Forward;
      left, young, complete := {}, {}, false;
      var start := 0;
      ForwardStays(s, g);
      PendingWasRead(run, g);
      for r := 0 to rounds
        invariant Ok() && Through(s, g, Claimer, []) && Forward(old(s), s, g)
        invariant forall i :: i in old(s).gates[g].pel ==> i < s.gates[g].next && i < |s.stream|
        invariant forall i :: i in old(s).gates[g].pel && i < start ==> i in left || i in young || i !in s.gates[g].pel
      {
        ghost var s0 := s;
        WaitIdle(g, Claimer);
        var batch, gone, tooYoung, next := ScanPending(g, start);
        var answered: bool := *;
        ClaimDoes(s, g, batch, gone, answered);
        ghost var s1 := s;
        Do(Claim(g, batch, gone, answered));
        ghost var s2 := s;
        var failed := {};
        if answered {
          failed := HandleBatch(g, Claimer, batch);
        } else {
          ForwardStays(s, g);
        }
        ForwardTwice(old(s), s0, s1, g);
        ForwardTwice(old(s), s1, s2, g);
        ForwardTwice(old(s), s2, s, g);
        forall i | i in old(s).gates[g].pel
          ensures i < s.gates[g].next && i < |s.stream|
          ensures i !in s0.gates[g].pel || i !in s1.gates[g].pel || i !in s2.gates[g].pel ==> i !in s.gates[g].pel
        {
          ForwardKeeps(s0, s1, g, i);
          ForwardKeeps(s1, s2, g, i);
          ForwardKeeps(s2, s, g, i);
        }
        if !answered {
          return;
        }
        left, young := left + failed, young + tooYoung;
        if |batch| == 0 || next == 0 {
          complete := next == 0;
          return;
        }
        start := next;
      }
    }

    /** The others run while this worker rests. */
    method WaitIdle(g: nat, w: Which)
      requires Ok() && Leaves(g, w) && Through(s, g, w, [])
      modifies this
      ensures Ok() && Forward(old(s), s, g) && Through(s, g, w, [])
    {
      hide Step, Exec, Inv;
      OthersSteps(s, schedule(pauses), g, w);
      Pause();
    }

    // ---------- the handshake ----------

    ghost predicate LeavesShake(g: nat, c: nat) {
      forall n, a :: a in schedule(n) ==> !ByHandshake(a, g, c)
    }

    /** Connection c of this session and instance is at this point of its handshake. */
    ghost predicate Shaking(g: nat, session: Session, c: nat, shake: Shake)
      reads this
    {
      ShakeAt(s, g, session, c, shake)
    }

    method WaitShake(g: nat, session: Session, c: nat, ghost shake: Shake, ghost d: nat)
      requires Ok() && LeavesShake(g, c) && Shaking(g, session, c, shake) && d < |s.conns|
      modifies this
      ensures Ok() && Shaking(g, session, c, shake) && d < |s.conns|
      ensures old(s.conns[d].pipe.closed) ==> s.conns[d].pipe.closed
      ensures Replaced(old(s), g, session, d) ==> Replaced(s, g, session, d)
    {
      hide Step, Exec, Inv, Replaced, ByHandshake;
      OthersKeepShake(s, schedule(pauses), g, c, session, d);
      Pause();
    }

    /** Take the older connection's place, close it, then replay what is stored. When it returns, the
        replay is over, and the older connection is closed and out of the hub for good. */
    method HandleWS(g: nat, session: Session, queueSize: int, readable: bool) returns (c: nat, previous: Option<nat>)
      requires Ok() && g < |s.gates| && LeavesShake(g, |s.conns|)
      modifies this
      ensures Ok() && c == |old(s).conns|
      ensures previous == if session in old(s).gates[g].hub then Some(old(s).gates[g].hub[session]) else None
      ensures Shaking(g, session, c, Finished) || (Shaking(g, session, c, Failed) && (readable ==> s.conns[c].pipe.closed))
      ensures previous.Some? ==>
        previous.value < c && s.conns[previous.value].pipe.closed && Replaced(s, g, session, previous.value)
      ensures forall i :: ReplayCovers(g, session, c, i)
    {
      hide Step, Exec, Inv, ReplayCovers, Replaced;
      c := |s.conns|;
      previous := if session in s.gates[g].hub then Some(s.gates[g].hub[session]) else None;
      if previous.Some? { HubKnows(run, g, session); }
      ConnectDoes(s, g, session, queueSize);
      Do(Connect(g, session, queueSize));
      ghost var d := c;
      if previous.Some? {
        d := previous.value;
        assert Replaced(s, g, session, d);
        WaitShake(g, session, c, Registered, d);
        CloseDoes(s, g, session, c, d);
        Do(Close(previous.value));
        WaitShake(g, session, c, Registered, d);
        UnregisterDoes(s, g, session, c, d);
        Do(Unregister(previous.value));
        assert Replaced(s, g, session, d);
      }
      WaitShake(g, session, c, Registered, d);
      ReplayPending(g, session, c, readable, d);
      forall i ensures ReplayCovers(g, session, c, i) { Covers(g, session, c, i); }
    }

    /** The protocol's promise for an event saved on this instance. */
    ghost predicate ReplayCovers(g: nat, session: Session, c: nat, i: nat)
      reads this
    {
      && g < |s.gates| && c < |s.conns|
      && (i in s.gates[g].saved && i < |s.stream| && s.stream[i].target == session && Current(s, g, session, c)
          && !InProgress(s.gates[g].reader, i) && !InProgress(s.gates[g].claimer, i) && !Dismissed(s, i)
          ==> Handed(s, c, s.stream[i]) || HasNamesake(s.stream, i))
    }

    lemma Covers(g: nat, session: Session, c: nat, i: nat)
      requires Ok() && g < |s.gates| && c < |s.conns|
      ensures ReplayCovers(g, session, c, i)
    {
      hide Exec, Inv, HasId, Dismissed, Handed, HasNamesake;
      if i in s.gates[g].saved && i < |s.stream| && s.stream[i].target == session && Current(s, g, session, c)
         && !InProgress(s.gates[g].reader, i) && !InProgress(s.gates[g].claimer, i) && !Dismissed(s, i) {
        NoLostWakeUp(run, g, i, c);
      }
    }

    method ReplayPending(g: nat, session: Session, c: nat, readable: bool, ghost d: nat)
      requires Ok() && LeavesShake(g, c) && Shaking(g, session, c, Registered) && d < |s.conns|
      modifies this
      ensures Ok() && (Shaking(g, session, c, Finished) || (Shaking(g, session, c, Failed) && (readable ==> s.conns[c].pipe.closed)))
      ensures d < |s.conns| && (old(s.conns[d].pipe.closed) ==> s.conns[d].pipe.closed)
      ensures Replaced(old(s), g, session, d) ==> Replaced(s, g, session, d)
    {
      hide Step, Exec, Inv, Replaced;
      var order := [];
      if readable { order := ReadHash(session); }
      ReadPendingDoes(s, g, session, c, order, readable, d);
      Do(ReadPending(c, order, readable));
      if !readable {
        return;
      }
      var rest := order;
      while rest != []
        invariant Ok() && Shaking(g, session, c, Replay(rest)) && d < |s.conns|
        invariant old(s.conns[d].pipe.closed) ==> s.conns[d].pipe.closed
        invariant Replaced(old(s), g, session, d) ==> Replaced(s, g, session, d)
        decreases |rest|
      {
        WaitShake(g, session, c, Replay(rest), d);
        var late: bool := *;
        ReplayOneDoes(s, g, session, c, rest, late, d);
        var full := SendResultOf(s.conns[c].pipe, late).QueueFull?;
        Do(ReplayOne(c, late));
        if full {
          WaitShake(g, session, c, Overflow, d);
          CloseOverflowDoes(s, g, session, c, d);
          Do(CloseOverflow(c));
          return;
        }
        rest := rest[1..];
      }
    }

    /** HVALS of the session's hash. */
    method ReadHash(session: Session) returns (order: seq<Payload>)
      ensures IsPending(s.store, session, order)
    {
      hide Listed, IsPending;
      order := [];
      var todo := s.store.Keys;
      ListedNone(s.store, session);
      assert s.store.Keys - todo == {};
      while todo != {}
        invariant todo <= s.store.Keys && Listed(s.store, session, s.store.Keys - todo, order)
        decreases todo
      {
        var key :| key in todo;
        ListedMore(s.store, session, s.store.Keys - todo, key, order);
        assert s.store.Keys - todo + {key} == s.store.Keys - (todo - {key});
        todo := todo - {key};
        if key.0 == session { order := order + [s.store[key]]; }
      }
      assert s.store.Keys - todo == s.store.Keys;
      ListedAll(s.store, session, order);
    }
  }
}
