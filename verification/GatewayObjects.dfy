/** The gateway's parts that live in one process: the connection's bounded queue, the hub map and
    the delivery hash. Their updates are functions, used by the protocol machine as well; the
    classes are proved against them. */
module GatewayObjects {

  datatype Option<+T> = None | Some(value: T)

  type Session = string
  type EventId = string

  datatype Payload = Payload(eventId: EventId, kind: string, reason: string)

  /** A stream entry after parsing; a missing or non-string field reads as "". */
  datatype Entry = Entry(eventId: EventId, kind: string, target: Session, reason: string) {
    predicate WellFormed() { eventId != "" && target != "" }

    function Message(): Payload { Payload(eventId, kind, reason) }

    function Key(): (Session, EventId) { (target, eventId) }
  }

  predicate HasId(ps: seq<Payload>, id: EventId) {
    exists k :: 0 <= k < |ps| && ps[k].eventId == id
  }

  // ---------- one connection ----------

  /** queue is the bounded channel, taken the message the write loop holds, written what reached the
      socket; handed is the history of what Send accepted. */
  datatype Pipe = Pipe(
    capacity: nat, queue: seq<Payload>, taken: Option<Payload>, written: seq<Payload>, closed: bool, handed: seq<Payload>)
  {
    /** While open, nothing accepted is lost or reordered. */
    ghost predicate Valid() {
      && |queue| <= capacity
      && handed == written + Held() + queue
    }

    function Held(): seq<Payload> {
      if taken.Some? then [taken.value] else []
    }
  }

  datatype SendResult = Sent | Closed | QueueFull

  function NewPipe(writeQueueSize: int): Pipe {
    Pipe(if writeQueueSize <= 0 then 128 else writeQueueSize, [], None, [], false, [])
  }

  /** The closed check comes first, then the non-blocking enqueue. A close may fall between the two:
      `late` says the check had still seen the connection open. */
  function SendResultOf(p: Pipe, late: bool): SendResult {
    if p.closed && !late then Closed
    else if |p.queue| >= p.capacity then QueueFull
    else Sent
  }

  function AfterSend(p: Pipe, payload: Payload, late: bool): Pipe {
    if SendResultOf(p, late).Sent? then p.(queue := p.queue + [payload], handed := p.handed + [payload]) else p
  }

  function AfterTake(p: Pipe): Pipe {
    if p.taken.None? && |p.queue| > 0 then p.(queue := p.queue[1..], taken := Some(p.queue[0])) else p
  }

  function AfterWrite(p: Pipe): Pipe {
    if p.taken.Some? then p.(taken := None, written := p.written + [p.taken.value]) else p
  }

  lemma PipeStaysValid(p: Pipe, payload: Payload, late: bool)
    requires p.Valid()
    ensures AfterSend(p, payload, late).Valid() && AfterTake(p).Valid() && AfterWrite(p).Valid()
    ensures p.(closed := true).Valid()
  {
    if p.taken.None? && |p.queue| > 0 {
      assert p.queue == [p.queue[0]] + p.queue[1..];
      assert p.written + [] + p.queue == p.written + [p.queue[0]] + p.queue[1..];
    }
    assert p.handed + [payload] == p.written + p.Held() + (p.queue + [payload]);
    if p.taken.Some? {
      assert p.written + p.Held() + p.queue == (p.written + [p.taken.value]) + [] + p.queue;
    }
  }

  // ---------- the hub ----------

  function RegisterIn<C>(conns: map<Session, C>, session: Session, c: C): map<Session, C> {
    conns[session := c]
  }

  function UnregisterFrom<C(==)>(conns: map<Session, C>, session: Session, c: C): map<Session, C> {
    if session in conns && conns[session] == c then conns - {session} else conns
  }

  /** Unregistering a connection that has been replaced does not touch the newer one, and
      unregistering never takes out anything but the connection named. */
  lemma UnregisterSparesNewer<C>(conns: map<Session, C>, session: Session, older: C, newer: C)
    requires older != newer
    ensures UnregisterFrom(RegisterIn(conns, session, newer), session, older) == RegisterIn(conns, session, newer)
    ensures UnregisterFrom(conns[session := older], session, older) == conns - {session}
    ensures var left := UnregisterFrom(conns, session, older);
      forall s :: s in conns && (s != session || conns[s] != older) ==> s in left && left[s] == conns[s]
  {
  }

  // ---------- the delivery hash ----------

  type Deliveries = map<(Session, EventId), Payload>

  function FieldsOf(d: Deliveries, session: Session): set<(Session, EventId)> {
    set key | key in d && key.0 == session
  }

  predicate IsField(d: Deliveries, session: Session, p: Payload) {
    exists key :: key in d && key.0 == session && d[key] == p
  }

  /** The order is the store's own; every field of the session's hash comes out, nothing else, and no
      more payloads than fields. */
  predicate IsPending(d: Deliveries, session: Session, out: seq<Payload>) {
    && (forall p :: p in out ==> IsField(d, session, p))
    && (forall key :: key in d && key.0 == session ==> d[key] in out)
    && |out| == |FieldsOf(d, session)|
  }

  /** The same for the fields gone through so far. */
  ghost predicate Listed(d: Deliveries, session: Session, seen: set<(Session, EventId)>, out: seq<Payload>) {
    && (forall p :: p in out ==> IsField(d, session, p))
    && (forall key :: key in d && key in seen && key.0 == session ==> d[key] in out)
    && |out| == |FieldsOf(d, session) * seen|
  }

  lemma ListedNone(d: Deliveries, session: Session)
    ensures Listed(d, session, {}, [])
  {
  }

  lemma ListedMore(d: Deliveries, session: Session, seen: set<(Session, EventId)>, key: (Session, EventId), out: seq<Payload>)
    requires Listed(d, session, seen, out) && key in d && key !in seen
    ensures Listed(d, session, seen + {key}, if key.0 == session then out + [d[key]] else out)
  {
    assert FieldsOf(d, session) * (seen + {key}) == FieldsOf(d, session) * seen + if key.0 == session then {key} else {};
    if key.0 == session {
      var more := out + [d[key]];
      assert more[|out|] == d[key] && IsField(d, session, d[key]);
      hide IsField;
      forall p | p in more ensures IsField(d, session, p) { assert p in out || p == d[key]; }
      forall other | other in d && other in seen + {key} && other.0 == session ensures d[other] in more {
        assert other == key || d[other] in out;
      }
    }
  }

  lemma ListedAll(d: Deliveries, session: Session, out: seq<Payload>)
    requires Listed(d, session, d.Keys, out)
    ensures IsPending(d, session, out)
  {
    assert FieldsOf(d, session) * d.Keys == FieldsOf(d, session);
  }

  /** Where every field holds the payload of its own event, no event comes out twice. */
  lemma PendingOnce(d: Deliveries, session: Session, out: seq<Payload>, i: nat, j: nat)
    requires IsPending(d, session, out) && i < j < |out|
    requires forall key :: key in d ==> d[key].eventId == key.1
    ensures out[i].eventId != out[j].eventId
  {
    if out[i].eventId == out[j].eventId {
      var rest := out[..j] + out[j + 1..];
      var ids, fields := IdsIn(rest), FieldsOf(d, session);
      assert rest[i] == out[i];
      forall key | key in fields ensures key.1 in ids {
        var k :| 0 <= k < |out| && out[k] == d[key];
        assert k != j ==> rest[if k < j then k else k - 1] == out[k];
      }
      IdsBounded(rest);
      FieldsWithin(fields, session, ids);
    }
  }

  function IdsIn(ps: seq<Payload>): set<EventId> {
    set p | p in ps :: p.eventId
  }

  lemma {:induction false} IdsBounded(ps: seq<Payload>)
    ensures |IdsIn(ps)| <= |ps|
  {
    if ps != [] {
      var init, last := ps[..|ps| - 1], ps[|ps| - 1];
      IdsBounded(init);
      assert IdsIn(ps) == IdsIn(init) + {last.eventId};
    }
  }

  lemma {:induction false} FieldsWithin(fields: set<(Session, EventId)>, session: Session, ids: set<EventId>)
    requires forall key :: key in fields ==> key.0 == session && key.1 in ids
    ensures |fields| <= |ids|
    decreases fields
  {
    if fields != {} {
      var key :| key in fields;
      assert forall other :: other in fields - {key} ==> other.1 != key.1;
      FieldsWithin(fields - {key}, session, ids - {key.1});
    }
  }

  class Store {
    var hashes: Deliveries

    constructor ()
      ensures hashes == map[]
    {
      hashes := map[];
    }

    /** Idempotent: saving an event twice overwrites the field. */
    method Save(session: Session, id: EventId, payload: Payload)
      modifies this
      ensures hashes == old(hashes)[(session, id) := payload]
    {
      hashes := hashes[(session, id) := payload];
    }

    method Pending(session: Session) returns (out: seq<Payload>)
      ensures IsPending(hashes, session, out)
    {
      hide Listed, IsPending;
      out := [];
      var todo := hashes.Keys;
      ListedNone(hashes, session);
      assert hashes.Keys - todo == {};
      while todo != {}
        invariant todo <= hashes.Keys && Listed(hashes, session, hashes.Keys - todo, out)
        decreases todo
      {
        var key :| key in todo;
        ListedMore(hashes, session, hashes.Keys - todo, key, out);
        assert hashes.Keys - todo + {key} == hashes.Keys - (todo - {key});
        todo := todo - {key};
        if key.0 == session {
          out := out + [hashes[key]];
        }
      }
      assert hashes.Keys - todo == hashes.Keys;
      ListedAll(hashes, session, out);
    }

    method Ack(session: Session, id: EventId)
      modifies this
      ensures hashes == old(hashes) - {(session, id)}
    {
      hashes := hashes - {(session, id)};
    }
  }

  // ---------- the objects ----------

  class Connection {
    const session: Session
    const hub: Hub
    const capacity: nat
    var queue: seq<Payload>
    var taken: Option<Payload>
    var written: seq<Payload>
    var closed: bool
    ghost var handed: seq<Payload>

    constructor (session: Session, hub: Hub, writeQueueSize: int)
      ensures this.session == session && this.hub == hub && View() == NewPipe(writeQueueSize)
    {
      this.session, this.hub := session, hub;
      capacity := if writeQueueSize <= 0 then 128 else writeQueueSize;
      queue, taken, written, closed := [], None, [], false;
      handed := [];
    }

    ghost function View(): Pipe
      reads this
    {
      Pipe(capacity, queue, taken, written, closed, handed)
    }

    method Send(payload: Payload) returns (r: SendResult)
      modifies this
      ensures r == SendResultOf(old(View()), false) && View() == AfterSend(old(View()), payload, false)
      ensures r == if old(closed) then SendResult.Closed else if |old(queue)| >= capacity then QueueFull else Sent
      ensures r.Sent? ==> queue == old(queue) + [payload] && handed == old(handed) + [payload]
      ensures !r.Sent? ==> queue == old(queue) && handed == old(handed)
    {
      if closed {
        return SendResult.Closed;
      }
      if |queue| >= capacity {
        return QueueFull;
      }
      queue := queue + [payload];
      handed := handed + [payload];
      return Sent;
    }

    /** Only the first call has an effect; a connection that has been replaced leaves the hub alone. */
    method Close()
      modifies this, hub
      ensures View() == old(View()).(closed := true)
      ensures hub.conns == if old(closed) then old(hub.conns) else UnregisterFrom(old(hub.conns), session, this)
    {
      if closed {
        return;
      }
      closed := true;
      hub.Unregister(session, this);
    }

    /** One round of the write loop: false when it ends. */
    method WriteNext(fails: bool) returns (goOn: bool)
      requires taken.None?
      modifies this, hub
      ensures goOn == !(old(closed) || (fails && |old(queue)| > 0))
      ensures goOn ==> View() == AfterWrite(AfterTake(old(View()))) && hub.conns == old(hub.conns)
      ensures !goOn && !old(closed) ==> View() == AfterTake(old(View())).(closed := true)
      ensures !goOn && !old(closed) ==> hub.conns == UnregisterFrom(old(hub.conns), session, this)
    {
      if closed {
        return false;
      }
      if |queue| == 0 {
        return true;
      }
      taken := Some(queue[0]);
      queue := queue[1..];
      if fails {
        Close();
        return false;
      }
      written := written + [taken.value];
      taken := None;
      return true;
    }
  }

  class Hub {
    var conns: map<Session, Connection>

    constructor ()
      ensures conns == map[]
    {
      conns := map[];
    }

    method Register(c: Connection) returns (previous: Connection?)
      modifies this
      ensures conns == old(conns)[c.session := c]
      ensures previous == if c.session in old(conns) then old(conns)[c.session] else null
    {
      previous := null;
      if c.session in conns {
        previous := conns[c.session];
      }
      conns := conns[c.session := c];
    }

    method Unregister(session: Session, c: Connection)
      modifies this
      ensures conns == UnregisterFrom(old(conns), session, c)
    {
      if session in conns && conns[session] == c {
        conns := conns - {session};
      }
    }

    method Get(session: Session) returns (c: Connection?)
      ensures c == if session in conns then conns[session] else null
    {
      return if session in conns then conns[session] else null;
    }

    /** The map is emptied before any connection is closed; exactly those that were in it close. */
    method CloseAll()
      requires forall s :: s in conns ==> conns[s].hub == this
      modifies this, set s | s in conns :: conns[s]
      ensures conns == map[]
      ensures forall s :: s in old(conns) ==> old(conns)[s].View() == old(conns[s].View()).(closed := true)
    {
      var all := conns;
      conns := map[];
      var todo := all.Keys;
      while todo != {}
        invariant todo <= all.Keys && conns == map[]
        invariant forall s :: s in all ==> all[s].View() == old(all[s].View()).(closed := all[s].closed)
        invariant forall s :: s in all ==> all[s].closed || (s in todo && !old(all[s].closed))
        decreases todo
      {
        var s :| s in todo;
        all[s].Close();
        todo := todo - {s};
      }
    }
  }

  /** The handshake's last steps, run on their own: take the place of an older connection, then
      replay what is stored. The new connection has everything, or it is closed and gone. */
  method Accept(c: Connection, hub: Hub, store: Store) returns (previous: Connection?)
    requires c.hub == hub && c.View() == NewPipe(c.capacity) && c.capacity > 0
    requires forall s :: s in hub.conns ==> hub.conns[s] != c && hub.conns[s].hub == hub && hub.conns[s].session == s
    modifies hub, c, if c.session in hub.conns then {hub.conns[c.session]} else {}
    ensures previous == if c.session in old(hub.conns) then old(hub.conns)[c.session] else null
    ensures previous != null ==> previous.closed
    ensures !c.closed ==> hub.conns == old(hub.conns)[c.session := c] && IsPending(store.hashes, c.session, c.handed)
    ensures c.closed ==> hub.conns == old(hub.conns) - {c.session}
    ensures c.closed ==> exists out :: IsPending(store.hashes, c.session, out) && |out| > c.capacity
  {
    previous := hub.Register(c);
    if previous != null {
      previous.Close();
    }
    var pending := store.Pending(c.session);
    for i := 0 to |pending|
      invariant c.View() == Pipe(c.capacity, pending[..i], None, [], false, pending[..i])
      invariant i <= c.capacity
      invariant hub.conns == RegisterIn(old(hub.conns), c.session, c)
      invariant previous != null ==> previous.closed
    {
      var r := c.Send(pending[i]);
      if r.QueueFull? {
        c.Close();
        return;
      }
    }
    assert pending[..|pending|] == pending;
  }
}
