/** What holds after every run of the gateway. */
module GatewayTheorems {
  import opened GatewayObjects
  import opened GatewayProtocol
  import opened GatewayConsumerSteps
  import opened GatewayConnectionSteps

  /** No event is lost: for each instance's group, whatever failed, crashed or was claimed again, a
      well-formed event is unread, pending, in the delivery hash, acknowledged by a client of its
      session, or it was trimmed from the stream or its hash expired. */
  lemma NoEventLost(run: seq<Action>, g: nat, i: nat)
    requires var s := Exec(run); g < |s.gates| && i < |s.stream| && s.stream[i].eventId != "" && s.stream[i].target != ""
    ensures var s := Exec(run);
      var key := (s.stream[i].target, s.stream[i].eventId);
      || s.gates[g].next <= i
      || i in s.gates[g].pel
      || (key in s.store && Published(s.stream, key.0, s.store[key]) && s.store[key].eventId == key.1)
      || key in s.acked
      || key in s.expired
      || i < s.trimmed
  {
    hide Exec, Inv, WakesCurrent, HasId, Published;
    var s := Exec(run);
    Reachable(run);
    GateFacts(s, g);
    StoreFacts(s, (s.stream[i].target, s.stream[i].eventId));
    if i in s.gates[g].saved { CoveredFacts(s, g, i); }
  }

  lemma StoreFacts(s: State, key: (Session, EventId))
    requires Inv(s)
    ensures key in s.store ==> Published(s.stream, key.0, s.store[key]) && s.store[key].eventId == key.1
  {
  }

  /** Some worker of the instance has the entry in hand, past its save. */
  predicate InProgress(k: Worker, i: nat) {
    k.Working() && k.todo[0] == i && !k.phase.Saving?
  }

  /** The session's current connection here: in the hub, open, and done replaying. */
  predicate Current(s: State, g: nat, t: Session, c: nat) {
    && g < |s.gates| && t in s.gates[g].hub && s.gates[g].hub[t] == c && c < |s.conns|
    && !s.conns[c].pipe.closed && s.conns[c].shake.Finished?
  }

  /** Connection c was handed just this event: its id, its kind and its reason. */
  predicate Handed(s: State, c: nat, e: Entry)
    requires c < |s.conns|
  {
    exists k :: 0 <= k < |s.conns[c].pipe.handed| && Tells(s.conns[c].pipe.handed[k], e)
  }

  /** Another event was published for the session of entry i under its id, with another kind or reason. */
  predicate HasNamesake(stream: seq<Entry>, i: nat)
    requires i < |stream|
  {
    exists j :: 0 <= j < |stream| && stream[j].target == stream[i].target && stream[j].eventId == stream[i].eventId
      && (stream[j].kind != stream[i].kind || stream[j].reason != stream[i].reason)
  }

  /** What was handed over under the entry's id is the entry itself, or its namesake. */
  lemma HandedIsTheEvent(s: State, c: nat, i: nat)
    requires Inv(s) && c < |s.conns| && i < |s.stream| && s.conns[c].session == s.stream[i].target
    requires HasId(s.conns[c].pipe.handed, s.stream[i].eventId)
    ensures Handed(s, c, s.stream[i]) || HasNamesake(s.stream, i)
  {
    ConnFacts(s, c);
    hide Inv;
    var handed := s.conns[c].pipe.handed;
    var k :| 0 <= k < |handed| && handed[k].eventId == s.stream[i].eventId;
    assert handed[k] in handed && Published(s.stream, s.conns[c].session, handed[k]);
    var j: nat :| j < |s.stream| && s.stream[j].target == s.conns[c].session && Tells(handed[k], s.stream[j]);
    if !Tells(handed[k], s.stream[i]) {
      assert s.stream[j].kind != s.stream[i].kind || s.stream[j].reason != s.stream[i].reason;
    }
  }

  /** No lost wake-up: once this instance has saved an event and no worker is still busy with it, the
      session's current connection has been handed the event, however saves, acknowledgements, hub
      look-ups and sends interleaved with registrations, replays and replacements; unless a client
      had acknowledged the event or its hash had expired. It was handed that very event, with its kind and
      reason, unless another one took its place in the hash by having its id. */
  lemma NoLostWakeUp(run: seq<Action>, g: nat, i: nat, c: nat)
    requires var s := Exec(run);
      && g < |s.gates| && i in s.gates[g].saved && i < |s.stream|
      && !InProgress(s.gates[g].reader, i) && !InProgress(s.gates[g].claimer, i)
      && Current(s, g, s.stream[i].target, c)
      && !Dismissed(s, i)
    ensures HasId(Exec(run).conns[c].pipe.handed, Exec(run).stream[i].eventId)
    ensures Handed(Exec(run), c, Exec(run).stream[i]) || HasNamesake(Exec(run).stream, i)
  {
    hide Exec, Inv, HasId, Published, Handed, HasNamesake;
    Reachable(run);
    CoveredFacts(Exec(run), g, i);
    GateFacts(Exec(run), g);
    HandedIsTheEvent(Exec(run), c, i);
  }

  /** An instance that has read everything and is doing nothing owes its connections nothing. */
  lemma QuietMeansDelivered(run: seq<Action>, g: nat, i: nat, c: nat)
    requires var s := Exec(run);
      && g < |s.gates| && i < |s.stream| && s.trimmed <= i && s.stream[i].eventId != "" && s.stream[i].target != ""
      && s.gates[g].next == |s.stream| && s.gates[g].pel == {}
      && !s.gates[g].reader.Working() && !s.gates[g].claimer.Working()
      && Current(s, g, s.stream[i].target, c)
      && !Dismissed(s, i)
    ensures HasId(Exec(run).conns[c].pipe.handed, Exec(run).stream[i].eventId)
    ensures Handed(Exec(run), c, Exec(run).stream[i]) || HasNamesake(Exec(run).stream, i)
  {
    hide Exec, Inv, HasId, Published, WakesCurrent, Handed, HasNamesake;
    Reachable(run);
    GateFacts(Exec(run), g);
    NoLostWakeUp(run, g, i, c);
  }

  /** What an open connection was handed is what it wrote, then what it is writing, then its queue,
      in order; and every message on it was published for its own session. */
  lemma ConnectionsKeepOrderAndSession(run: seq<Action>, c: nat)
    requires c < |Exec(run).conns|
    ensures var s := Exec(run);
      var p := s.conns[c].pipe;
      && p.handed == p.written + p.Held() + p.queue
      && |p.queue| <= p.capacity
      && (forall k :: 0 <= k < |p.handed| ==> Published(s.stream, s.conns[c].session, p.handed[k]))
      && (s.conns[c].shake.Replaying? ==> forall k :: 0 <= k < |s.conns[c].shake.rest| ==> Published(s.stream, s.conns[c].session, s.conns[c].shake.rest[k]))
  {
    hide Exec, Inv, HasId, Published;
    Reachable(run);
    ConnFacts(Exec(run), c);
  }

  // ---------- what single steps do ----------

  /** A save puts this very event into its session's hash, under its id, and leaves the rest of it. */
  lemma SavePutsTheEvent(s: State, g: nat, w: Which, o: Outcome)
    requires Busy(s, g, w) && PhaseOf(s, g, w).Saving?
    requires s.stream[Head(s, g, w)].eventId != "" && s.stream[Head(s, g, w)].target != ""
    ensures var e, store := s.stream[Head(s, g, w)], Step(s, Save(g, w, o)).store;
      var key := (e.target, e.eventId);
      && (if o.FailedClean? then store == s.store else key in store && Tells(store[key], e))
      && forall other :: other != key ==> (other in store <==> other in s.store) && (other in s.store ==> store[other] == s.store[other])
  {
  }

  /** A push to an open connection with room in its queue hands over this very event, and nothing else; to a
      full queue it hands over nothing. */
  lemma PushHandsOver(s: State, g: nat, w: Which, late: bool)
    requires Busy(s, g, w) && PhaseOf(s, g, w).Sending? && PhaseOf(s, g, w).c < |s.conns|
    ensures var c, s' := PhaseOf(s, g, w).c, Step(s, Send(g, w, late));
      var pipe, pipe' := s.conns[c].pipe, s'.conns[c].pipe;
      if (!pipe.closed || late) && |pipe.queue| < pipe.capacity then
        |pipe'.handed| == |pipe.handed| + 1 && pipe.handed <= pipe'.handed && Tells(pipe'.handed[|pipe.handed|], s.stream[Head(s, g, w)])
      else pipe' == pipe
  {
  }

  /** A replay hands over the pending payloads in their order. */
  lemma ReplayHandsOver(s: State, c: nat, late: bool)
    requires c < |s.conns| && s.conns[c].shake.Replaying? && s.conns[c].shake.rest != []
    ensures var pipe, pipe' := s.conns[c].pipe, Step(s, ReplayOne(c, late)).conns[c].pipe;
      pipe'.handed == if (!pipe.closed || late) && |pipe.queue| < pipe.capacity then pipe.handed + [s.conns[c].shake.rest[0]] else pipe.handed
  {
  }

  /** A client's acknowledgement takes its own session's field, and no other. */
  lemma AckTakesItsOwn(s: State, c: nat, id: EventId, o: Outcome)
    requires c < |s.conns| && id != ""
    ensures var key, s' := (s.conns[c].session, id), Step(s, Ack(c, id, o));
      && (key in s'.store <==> key in s.store && o.FailedClean?)
      && forall other :: other != key ==> (other in s'.store <==> other in s.store) && (other in s'.store ==> s'.store[other] == s.store[other])
  {
  }

  /** A connecting client is the one its instance knows for the session from then on; others stay. */
  lemma ConnectRegisters(s: State, g: nat, session: Session, queueSize: int, other: Session)
    requires g < |s.gates|
    ensures var s' := Step(s, Connect(g, session, queueSize));
      && session in s'.gates[g].hub && s'.gates[g].hub[session] == |s.conns| && !s'.conns[|s.conns|].pipe.closed
      && s'.conns[|s.conns|].session == session && s'.conns[|s.conns|].pipe.capacity == (if queueSize <= 0 then 128 else queueSize)
      && (other != session ==> (other in s'.gates[g].hub <==> other in s.gates[g].hub))
      && (other != session && other in s.gates[g].hub ==> s'.gates[g].hub[other] == s.gates[g].hub[other])
  {
  }

  /** A closed connection that unregisters is no longer known; a newer one of its session is. */
  lemma UnregisterForgets(s: State, c: nat)
    requires c < |s.conns| && s.conns[c].pipe.closed && s.conns[c].gate < |s.gates|
    ensures var g, t, s' := s.conns[c].gate, s.conns[c].session, Step(s, Unregister(c));
      && (t in s'.gates[g].hub ==> s'.gates[g].hub[t] != c)
      && (t in s.gates[g].hub && s.gates[g].hub[t] != c ==> t in s'.gates[g].hub && s'.gates[g].hub[t] == s.gates[g].hub[t])
  {
  }

  // ---------- clients that acknowledge only what they were sent ----------

  ghost predicate Received(s: State, key: (Session, EventId)) {
    exists c: nat :: c < |s.conns| && s.conns[c].session == key.0 && HasId(s.conns[c].pipe.written, key.1)
  }

  /** Every acknowledgement names an event written to that very connection before. */
  ghost predicate Honest(run: seq<Action>) {
    forall k: nat :: k < |run| && run[k].Ack? ==> HonestAck(Exec(run[..k]), run[k])
  }

  ghost predicate HonestAck(s: State, a: Action)
    requires a.Ack?
  {
    a.c < |s.conns| ==> HasId(s.conns[a.c].pipe.written, a.id)
  }

  /** Connections are never taken away, keep their session, and what was written stays written. */
  lemma ConnsOnlyGrow(s: State, a: Action)
    ensures var s' := Step(s, a);
      && |s.conns| <= |s'.conns|
      && forall c: nat :: c < |s.conns| ==>
        s'.conns[c].session == s.conns[c].session && s.conns[c].pipe.written <= s'.conns[c].pipe.written
  {
    hide IsPending, SendResultOf, StepSkip, StepSave, StepXAck, StepGet, StepRead, StepClaim;
    if a.Skip? || a.Save? || a.XAck? || a.Get? || a.Read? || a.Claim? { ConsumersKeepConns(s, a); }
  }

  lemma ConsumersKeepConns(s: State, a: Action)
    requires a.Skip? || a.Save? || a.XAck? || a.Get? || a.Read? || a.Claim?
    ensures Step(s, a).conns == s.conns
  {
  }

  lemma ReceivedStays(s: State, a: Action, key: (Session, EventId))
    requires Received(s, key)
    ensures Received(Step(s, a), key)
  {
    hide Step;
    ConnsOnlyGrow(s, a);
    var c: nat :| c < |s.conns| && s.conns[c].session == key.0 && HasId(s.conns[c].pipe.written, key.1);
    var old', now := s.conns[c].pipe.written, Step(s, a).conns[c].pipe.written;
    var k :| 0 <= k < |old'| && old'[k].eventId == key.1;
    assert now[k].eventId == key.1;
    assert HasId(now, key.1);
  }

  lemma OnlyAcksDismiss(s: State, a: Action, key: (Session, EventId))
    requires key in Step(s, a).acked && key !in s.acked
    ensures a.Ack? && a.c < |s.conns| && key == (s.conns[a.c].session, a.id)
  {
    hide IsPending, SendResultOf;
  }

  lemma HonestPrefix(init: seq<Action>, a: Action)
    requires Honest(init + [a])
    ensures Honest(init) && (a.Ack? ==> HonestAck(Exec(init), a))
  {
    hide Exec, HonestAck;
    var run := init + [a];
    forall k: nat | k < |init| && init[k].Ack? ensures HonestAck(Exec(init[..k]), init[k]) {
      assert run[k] == init[k] && run[..k] == init[..k];
    }
    assert run[|init|] == a && run[..|init|] == init;
  }

  lemma AckReceives(s: State, a: Action, key: (Session, EventId))
    requires key in Step(s, a).acked && key !in s.acked && (a.Ack? ==> HonestAck(s, a))
    ensures Received(s, key)
  {
    hide Step;
    OnlyAcksDismiss(s, a, key);
  }

  /** What honest clients acknowledged, a client of that session had received. */
  lemma {:induction false} AckedWasReceived(run: seq<Action>, key: (Session, EventId))
    requires Honest(run) && key in Exec(run).acked
    ensures Received(Exec(run), key)
  {
    hide Exec, Step, Inv, Received, Honest, HonestAck;
    if run == [] {
      StartsEmpty();
    } else {
      var init, a := run[..|run| - 1], run[|run| - 1];
      assert run == init + [a];
      ExecStep(init, a);
      HonestPrefix(init, a);
      if key in Exec(init).acked {
        AckedWasReceived(init, key);
      } else {
        AckReceives(Exec(init), a, key);
      }
      ReceivedStays(Exec(init), a, key);
    }
  }

  lemma StartsEmpty()
    ensures Exec([]) == INIT
  {
  }

  /** At least once, end to end: with such clients, an event leaves the stream, the pending list and
      the hash only once a client of its session has received it, short of trimming and expiry. */
  lemma AtLeastOnce(run: seq<Action>, g: nat, i: nat)
    requires Honest(run)
    requires var s := Exec(run);
      && g < |s.gates| && s.trimmed <= i < s.gates[g].next && i < |s.stream| && s.stream[i].eventId != "" && s.stream[i].target != ""
      && i !in s.gates[g].pel
      && (s.stream[i].target, s.stream[i].eventId) !in s.store && (s.stream[i].target, s.stream[i].eventId) !in s.expired
    ensures Received(Exec(run), (Exec(run).stream[i].target, Exec(run).stream[i].eventId))
  {
    hide Exec, Received;
    NoEventLost(run, g, i);
    AckedWasReceived(run, (Exec(run).stream[i].target, Exec(run).stream[i].eventId));
  }
}
