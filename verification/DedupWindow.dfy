/** The browser's realtime client: connection life, acknowledgement, and the bounded window of handled
    event ids. */
module DedupWindow {

  datatype Option<+T> = None | Some(value: T)

  datatype Message = Message(kind: string, eventId: string, eventType: string, reason: string)

  datatype Event = Event(eventId: string, eventType: string, reason: string)

  datatype Status = Idle | Connecting | Open | Reconnecting | Closed

  predicate IsEvent(m: Option<Message>) {
    m.Some? && m.value.kind == "event" && m.value.eventId != ""
  }

  predicate Terminates(eventType: string) {
    eventType == "session_replaced" || eventType == "session_terminated"
  }

  // ---------- the window ----------

  /** The last max elements. */
  function LastOf(s: seq<string>, max: int): (last: seq<string>)
    ensures |last| <= |s| && last == s[|s| - |last|..]
    ensures max >= 0 ==> |last| <= max
    ensures |s| >= max > 0 ==> |last| == max
  {
    if |s| <= max then s else if max <= 0 then [] else s[|s| - max..]
  }

  /** Oldest first; a message of a known id changes nothing. */
  function Remember(window: seq<string>, id: string, max: int): seq<string> {
    if id in window then window else LastOf(window + [id], max)
  }

  /** Ids of the messages, in order, that reach the handler. */
  function Handled(max: int, ids: seq<string>): seq<string> {
    if ids == [] then []
    else
      var init, id := ids[..|ids| - 1], ids[|ids| - 1];
      if id in Window(max, init) then Handled(max, init) else Handled(max, init) + [id]
  }

  function Window(max: int, ids: seq<string>): seq<string> {
    if ids == [] then [] else Remember(Window(max, ids[..|ids| - 1]), ids[|ids| - 1], max)
  }

  predicate Distinct(s: seq<string>) {
    forall i, j :: 0 <= i < j < |s| ==> s[i] != s[j]
  }

  lemma LastOfAppend(h: seq<string>, id: string, max: int)
    ensures LastOf(LastOf(h, max) + [id], max) == LastOf(h + [id], max)
  {
  }

  lemma DistinctLast(w: seq<string>, id: string, max: int)
    requires Distinct(w) && id !in w
    ensures Distinct(LastOf(w + [id], max))
  {
    assert Distinct(w + [id]);
  }

  /** The window is always the last ids handled, at most max of them, none twice. */
  lemma {:induction false} WindowIsLastHandled(max: int, ids: seq<string>)
    ensures Window(max, ids) == LastOf(Handled(max, ids), max) && Distinct(Window(max, ids))
  {
    hide LastOf, Distinct;
    if ids == [] {
      WindowOfNothing(max);
    } else {
      var init, id := ids[..|ids| - 1], ids[|ids| - 1];
      WindowIsLastHandled(max, init);
      LastOfAppend(Handled(max, init), id, max);
      if id !in Window(max, init) { DistinctLast(Window(max, init), id, max); }
    }
  }

  lemma WindowOfNothing(max: int)
    ensures Window(max, []) == LastOf([], max) && Distinct(Window(max, []))
  {
  }

  /** An id not among the last handled was handled at least max places ago. */
  lemma NotLastIsFar(h: seq<string>, max: int, i: nat, id: string)
    requires i < |h| && h[i] == id && id !in LastOf(h, max)
    ensures |h| - i - 1 >= max
    ensures max > 0 ==> h[|h| - max..] == LastOf(h, max)
  {
    var w := LastOf(h, max);
    assert forall k :: 0 <= k < |w| ==> h[|h| - |w| + k] == w[k] && w[k] in w;
  }

  /** The handler runs twice for one id only if at least max other ids were handled in between. */
  lemma {:induction false} HandledAgainOnlyFarApart(max: int, ids: seq<string>, i: nat, j: nat)
    requires i < j < |Handled(max, ids)| && Handled(max, ids)[i] == Handled(max, ids)[j]
    ensures j - i - 1 >= max
    ensures max > 0 ==> Distinct(Handled(max, ids)[j - max..j]) && Handled(max, ids)[j] !in Handled(max, ids)[j - max..j]
  {
    hide LastOf, Distinct;
    var init, id := ids[..|ids| - 1], ids[|ids| - 1];
    var h := Handled(max, init);
    if j < |h| {
      HandledAgainOnlyFarApart(max, init, i, j);
      if max > 0 { assert Handled(max, ids)[j - max..j] == h[j - max..j]; }
    } else {
      WindowIsLastHandled(max, init);
      NotLastIsFar(h, max, i, id);
      if max > 0 { assert Handled(max, ids)[j - max..j] == h[|h| - max..]; }
    }
  }

  lemma SeenOneMore(max: int, ids: seq<string>, id: string)
    ensures Window(max, ids + [id]) == Remember(Window(max, ids), id, max)
    ensures Handled(max, ids + [id]) == if id in Window(max, ids) then Handled(max, ids) else Handled(max, ids) + [id]
  {
    assert (ids + [id])[..|ids|] == ids;
  }

  // ---------- the client ----------

  datatype Socket = NoSocket | Opening | Ready

  const NON_RETRYABLE: set<int> := {4001, 4002, 4003}

  function Elements(s: seq<string>): set<string> {
    set x | x in s
  }

  function IdsOf(events: seq<Event>): (ids: seq<string>)
    ensures |ids| == |events| && forall i :: 0 <= i < |ids| ==> ids[i] == events[i].eventId
  {
    seq(|events|, i requires 0 <= i < |events| => events[i].eventId)
  }

  class RealtimeClient {
    const max: int
    var ws: Socket
    var status: Status
    var stopped: bool
    var sessionEnded: bool
    var attempt: nat
    var timer: bool
    var processedIds: set<string>
    var processedOrder: seq<string>
    var acked: seq<string>
    var handled: seq<Event>
    ghost var seen: seq<string>
    ghost var sockets: nat

    constructor (max: int)
      ensures Valid() && this.max == max && stopped && !sessionEnded && seen == [] && handled == [] && sockets == 0
    {
      this.max := max;
      ws, status, stopped, sessionEnded, attempt, timer := NoSocket, Idle, true, false, 0, false;
      processedIds, processedOrder, acked, handled := {}, [], [], [];
      seen, sockets := [], 0;
    }

    /** The id set is the window's contents; what was handled is what the window let through; an ended
        session is stopped. */
    ghost predicate Valid()
      reads this
    {
      && processedOrder == Window(max, seen)
      && processedIds == Elements(processedOrder)
      && IdsOf(handled) == Handled(max, seen)
      && "" !in processedIds
      && (sessionEnded ==> stopped)
    }

    /** What a reader of the object gets from Valid: no id twice, and no more than max of them. */
    lemma WindowIsBounded()
      requires Valid()
      ensures Distinct(processedOrder) && |processedOrder| <= if max < 0 then 0 else max
    {
      WindowIsLastHandled(max, seen);
    }

    /** Acknowledge first, then drop what is known; a terminating event ends the session. */
    method HandleMessage(message: Option<Message>)
      requires Valid()
      modifies this
      ensures Valid() && sockets == old(sockets) && ws == old(ws)
      ensures IsEvent(message) <==> message.Some? && message.value.kind == "event" && message.value.eventId != ""
      ensures !IsEvent(message) ==> seen == old(seen) && handled == old(handled) && acked == old(acked) && stopped == old(stopped) && sessionEnded == old(sessionEnded)
      ensures IsEvent(message) ==> seen == old(seen) + [message.value.eventId]
      ensures IsEvent(message) ==> acked == old(acked) + if ws.Ready? then [message.value.eventId] else []
      ensures IsEvent(message) && message.value.eventId in old(processedIds) ==> handled == old(handled) && stopped == old(stopped) && sessionEnded == old(sessionEnded)
      ensures IsEvent(message) && message.value.eventId !in old(processedIds) ==> (
        && handled == old(handled) + [Event(message.value.eventId, message.value.eventType, message.value.reason)]
        && (if message.value.eventType in {"session_replaced", "session_terminated"} then sessionEnded && stopped else stopped == old(stopped) && sessionEnded == old(sessionEnded)))
    {
      hide Window, Handled;
      if !IsEvent(message) {
        return;
      }
      var m := message.value;
      SendAck(m.eventId);
      WindowIsBounded();
      SeenOneMore(max, seen, m.eventId);
      seen := seen + [m.eventId];
      if m.eventId in processedIds {
        return;
      }
      RememberEventId(m.eventId);
      if Terminates(m.eventType) {
        sessionEnded, stopped := true, true;
      }
      handled := handled + [Event(m.eventId, m.eventType, m.reason)];
      assert IdsOf(handled) == IdsOf(old(handled)) + [m.eventId];
    }

    method SendAck(id: string)
      modifies this`acked
      ensures acked == old(acked) + if ws.Ready? then [id] else []
    {
      if !ws.Ready? {
        return;
      }
      acked := acked + [id];
    }

    /** The set and the FIFO grow together, and the overflow is shifted out of both. */
    method RememberEventId(id: string)
      requires id != "" && id !in processedIds && processedIds == Elements(processedOrder) && "" !in processedIds
      requires Distinct(processedOrder)
      modifies this`processedIds, this`processedOrder
      ensures processedOrder == Remember(old(processedOrder), id, max)
      ensures processedIds == Elements(processedOrder) && "" !in processedIds
    {
      assert id !in processedOrder;
      processedIds := processedIds + {id};
      processedOrder := processedOrder + [id];
      ghost var all := processedOrder;
      assert Distinct(all);
      var overflow := |processedOrder| - max;
      var i := 0;
      while i < overflow
        invariant 0 <= i && (overflow >= 0 ==> i <= overflow) && (overflow < 0 ==> i == 0)
        invariant processedOrder == if i <= |all| then all[i..] else []
        invariant processedIds == Elements(processedOrder)
      {
        if |processedOrder| > 0 {
          var oldest := processedOrder[0];
          FirstIsOnlyOnce(all, i);
          processedOrder := processedOrder[1..];
          if oldest != "" {
            processedIds := processedIds - {oldest};
          }
        }
        i := i + 1;
      }
    }

    /** Ignored while running, and for ever once the session has ended. */
    method Start(throws: bool)
      requires Valid()
      modifies this
      ensures Valid() && handled == old(handled) && seen == old(seen) && sessionEnded == old(sessionEnded)
      ensures old(sessionEnded) || !old(stopped) ==> sockets == old(sockets) && stopped == old(stopped)
      ensures !old(sessionEnded) ==> !stopped
      ensures !old(sessionEnded) && old(stopped) && old(ws).NoSocket? && !throws ==> ws.Opening? && sockets == old(sockets) + 1
    {
      if sessionEnded || !stopped {
        return;
      }
      stopped := false;
      attempt := 0;
      Connect(throws);
    }

    method Stop()
      requires Valid()
      modifies this
      ensures Valid() && stopped && !timer && ws == NoSocket && sockets == old(sockets)
      ensures handled == old(handled) && seen == old(seen) && sessionEnded == old(sessionEnded)
    {
      stopped := true;
      timer := false;
      ws := NoSocket;
      status := Closed;
    }

    /** A socket is opened exactly while not stopped and without one; one that cannot be opened is tried again later. */
    method Connect(throws: bool)
      requires Valid()
      modifies this`ws, this`status, this`attempt, this`timer, this`sockets
      ensures Valid()
      ensures stopped || !old(ws).NoSocket? ==> sockets == old(sockets) && ws == old(ws) && timer == old(timer)
      ensures !stopped && old(ws).NoSocket? && throws ==> sockets == old(sockets) && ws.NoSocket? && timer && attempt == old(attempt) + 1
      ensures !stopped && old(ws).NoSocket? && !throws ==> sockets == old(sockets) + 1 && ws.Opening? && timer == old(timer)
    {
      if stopped || ws != NoSocket {
        return;
      }
      status := if attempt == 0 then Connecting else Reconnecting;
      if throws {
        ScheduleReconnect();
        return;
      }
      ws := Opening;
      sockets := sockets + 1;
    }

    method ScheduleReconnect()
      requires Valid()
      modifies this`status, this`attempt, this`timer
      ensures Valid() && (if stopped then timer == old(timer) else timer && attempt == old(attempt) + 1)
    {
      if stopped {
        return;
      }
      attempt := attempt + 1;
      status := Reconnecting;
      timer := true;
    }

    method TimerFires(throws: bool)
      requires Valid()
      modifies this`ws, this`status, this`attempt, this`timer, this`sockets
      ensures Valid() && (stopped ==> sockets == old(sockets) && !timer)
      ensures !stopped && old(ws).NoSocket? ==> if throws then timer else ws.Opening? && sockets == old(sockets) + 1
    {
      timer := false;
      Connect(throws);
    }

    method OnOpen()
      requires Valid()
      modifies this`ws, this`status, this`attempt
      ensures Valid() && ws == Ready && attempt == 0
    {
      ws, attempt, status := Ready, 0, Open;
    }

    /** A code that says the session is dead ends it; any other close is followed by a reconnect. */
    method OnClose(code: int)
      requires Valid()
      modifies this`ws, this`status, this`stopped, this`sessionEnded, this`attempt, this`timer
      ensures Valid() && ws == NoSocket
      ensures old(stopped) ==> stopped && sessionEnded == old(sessionEnded) && timer == old(timer)
      ensures !old(stopped) && code in {4001, 4002, 4003} ==> stopped && sessionEnded && timer == old(timer)
      ensures !old(stopped) && code !in {4001, 4002, 4003} ==> !stopped && timer && sessionEnded == old(sessionEnded)
    {
      ws := NoSocket;
      if stopped {
        status := Closed;
        return;
      }
      if code in NON_RETRYABLE {
        sessionEnded, stopped, status := true, true, Closed;
        return;
      }
      ScheduleReconnect();
    }
  }

  lemma FirstIsOnlyOnce(all: seq<string>, i: nat)
    requires Distinct(all) && i < |all|
    ensures Elements(all[i..]) == Elements(all[i + 1..]) + {all[i]} && all[i] !in Elements(all[i + 1..])
  {
    var rest := all[i + 1..];
    assert all[i..] == [all[i]] + rest;
    assert forall k :: 0 <= k < |rest| ==> rest[k] == all[i + 1 + k];
  }
}
