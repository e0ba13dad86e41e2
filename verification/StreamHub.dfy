/** Server-sent events: the registry of connections and the per-session replay buffer. */
module StreamHub {
  import opened TodoPlan

  // ----- events -----

  datatype Kind =
    | stream_start | user_ack | text_delta
    | thinking_start | thinking_delta | thinking_end
    | tool_call_start | tool_call_delta | tool_call_end | tool_result
    | delegation_start | delegation_update | delegation_end
    | message_done | notification_new | context_compression | error
    | plan_created | plan_step_start | plan_step_complete | plan_step_failed | plan_adjusted | plan_complete

  /** State changes are kept for replay; deltas and notifications are not. */
  predicate Buffered(k: Kind) {
    !(k.text_delta? || k.thinking_delta? || k.tool_call_delta? || k.notification_new? || k.plan_step_failed?)
  }

  lemma BufferedKinds(k: Kind)
    ensures Buffered(k) <==> k in {
      stream_start, user_ack, tool_call_start, tool_call_end, tool_result, thinking_start, thinking_end,
      plan_created, plan_adjusted, plan_step_start, plan_step_complete, plan_complete,
      delegation_start, delegation_update, delegation_end, context_compression, message_done, error}
  {
  }

  /** An event carries a plan event of the task list, or data of no concern here. */
  datatype Event = PlanNews(plan: PlanEvent) | Other(other: Kind, data: nat)

  function KindOf(e: Event): Kind {
    match e
    case PlanNews(PlanCreated(_)) => plan_created
    case PlanNews(PlanAdjusted(_)) => plan_adjusted
    case PlanNews(StepStart(_, _)) => plan_step_start
    case PlanNews(StepComplete(_)) => plan_step_complete
    case PlanNews(PlanComplete) => plan_complete
    case Other(k, _) => k
  }

  datatype Stamped = Stamped(time: int, event: Event)

  const BUFFER_MAX := 200
  const BUFFER_TTL := 300
  const QUEUE_MAX := 500

  // ----- connections -----

  /** What was put into a queue: an event of the queue's session, or one for its user. */
  datatype Item = FromSession(event: Event) | FromUser(event: Event)

  /** A connection's queue: what waits, what the client was already sent, and whether a
      session event was ever refused because the queue was full. */
  datatype Queue = Queue(pending: seq<Item>, delivered: seq<Item>, lost: bool)

  function Put(q: Queue, item: Item): Queue {
    if |q.pending| >= QUEUE_MAX then q.(lost := q.lost || item.FromSession?)
    else q.(pending := q.pending + [item])
  }

  /** The queue after an item was offered: a queue of fewer than 500 waiting takes it, last, and a full one
      does not, which is noted for a session event. */
  predicate Offered(before: Queue, after: Queue, item: Item) {
    && after.delivered == before.delivered
    && (|before.pending| < 500 ==> after.pending == before.pending + [item] && after.lost == before.lost)
    && (|before.pending| >= 500 ==>
          after.pending == before.pending && (after.lost <==> before.lost || item.FromSession?))
  }

  predicate NoDuplicates(qs: seq<QueueId>) {
    forall i, j :: 0 <= i < j < |qs| ==> qs[i] != qs[j]
  }

  /** The item was offered once to each queue in `qs`, and nothing happened to any other. */
  predicate OfferedTo(before: map<QueueId, Queue>, after: map<QueueId, Queue>, qs: seq<QueueId>, item: Item) {
    && after.Keys == before.Keys
    && forall q :: q in before ==> if q in qs then Offered(before[q], after[q], item) else after[q] == before[q]
  }

  /** Everything the queue accepted, in order. */
  function Accepted(q: Queue): seq<Item> { q.delivered + q.pending }

  type QueueId = nat

  datatype Hub = Hub(
    active: map<string, QueueId>,
    users: map<int, seq<QueueId>>,
    buffer: map<string, seq<Stamped>>,
    queues: map<QueueId, Queue>)

  function BufferOf(h: Hub, sid: string): seq<Stamped> {
    if sid in h.buffer then h.buffer[sid] else []
  }

  function UserQueues(h: Hub, uid: int): seq<QueueId> {
    if uid in h.users then h.users[uid] else []
  }

  function LastN<T>(s: seq<T>, n: nat): (r: seq<T>)
    ensures |r| <= n
  {
    if |s| <= n then s else s[|s| - n..]
  }

  // ----- operations -----

  /** The buffer after a push: a new turn starts from scratch, and at most 200 events are kept. */
  function Buffer(buf: seq<Stamped>, x: Stamped): seq<Stamped> {
    var kept := if KindOf(x.event).stream_start? then [] else buf;
    if Buffered(KindOf(x.event)) then LastN(kept + [x], BUFFER_MAX) else kept
  }

  function PutInto(queues: map<QueueId, Queue>, q: QueueId, item: Item): map<QueueId, Queue> {
    if q in queues then queues[q := Put(queues[q], item)] else queues
  }

  /** Every registered queue exists. */
  predicate Registered(h: Hub) {
    && (forall sid :: sid in h.active ==> h.active[sid] in h.queues)
    && (forall uid, i :: uid in h.users && 0 <= i < |h.users[uid]| ==> h.users[uid][i] in h.queues)
  }

  function PushEvent(h: Hub, sid: string, e: Event, now: int): Hub {
    var h1 := h.(buffer := h.buffer[sid := Buffer(BufferOf(h, sid), Stamped(now, e))]);
    if sid in h.active then h1.(queues := PutInto(h.queues, h.active[sid], FromSession(e))) else h1
  }

  /** The buffered events young enough to be replayed. */
  function Fresh(buf: seq<Stamped>, now: int): seq<Event> {
    if buf == [] then [] else
      var x := buf[|buf| - 1];
      Fresh(buf[..|buf| - 1], now) + if now - x.time > BUFFER_TTL then [] else [x.event]
  }

  function AsItems(es: seq<Event>): (r: seq<Item>)
    ensures |r| == |es| && forall i :: 0 <= i < |r| ==> r[i] == FromSession(es[i])
  {
    seq(|es|, i requires 0 <= i < |es| => FromSession(es[i]))
  }

  function Connect(h: Hub, q: QueueId, sid: string, uid: int, now: int): Hub {
    h.(active := h.active[sid := q],
       users := h.users[uid := UserQueues(h, uid) + [q]],
       queues := h.queues[q := Queue(AsItems(Fresh(BufferOf(h, sid), now)), [], false)])
  }

  /** `list.remove`: drops the first occurrence, if any. */
  function Without(s: seq<QueueId>, q: QueueId): seq<QueueId> {
    if s == [] then [] else if s[0] == q then s[1..] else [s[0]] + Without(s[1..], q)
  }

  function Disconnect(h: Hub, q: QueueId, sid: string, uid: int): Hub {
    var rest := Without(UserQueues(h, uid), q);
    h.(active := if sid in h.active && h.active[sid] == q then h.active - {sid} else h.active,
       users := if rest == [] then h.users - {uid} else h.users[uid := rest])
  }

  function PutAll(queues: map<QueueId, Queue>, qs: seq<QueueId>, item: Item): (r: map<QueueId, Queue>)
    ensures r.Keys == queues.Keys
  {
    if qs == [] then queues else PutInto(PutAll(queues, qs[..|qs| - 1], item), qs[|qs| - 1], item)
  }

  lemma {:induction false} PutAllOffers(queues: map<QueueId, Queue>, qs: seq<QueueId>, item: Item)
    requires NoDuplicates(qs)
    ensures OfferedTo(queues, PutAll(queues, qs, item), qs, item)
  {
    if qs != [] {
      var init, q := qs[..|qs| - 1], qs[|qs| - 1];
      PutAllOffers(queues, init, item);
      assert q !in init;
      assert forall p :: p in qs <==> p in init || p == q;
      hide Offered, PutAll;
      PutOffers(PutAll(queues, init, item), q, item);
    }
  }

  lemma PutOffers(queues: map<QueueId, Queue>, q: QueueId, item: Item)
    ensures OfferedTo(queues, PutInto(queues, q, item), [q], item)
  {
  }

  function PushUserEvent(h: Hub, uid: int, e: Event): Hub {
    h.(queues := PutAll(h.queues, UserQueues(h, uid), FromUser(e)))
  }

  /** The connection's generator sends the next event to the client. */
  function Deliver(h: Hub, q: QueueId): Hub {
    if q !in h.queues || h.queues[q].pending == [] then h
    else
      var x := h.queues[q];
      h.(queues := h.queues[q := Queue(x.pending[1..], x.delivered + [x.pending[0]], x.lost)])
  }

  function DeliverN(h: Hub, q: QueueId, n: nat): Hub {
    if n == 0 then h else Deliver(DeliverN(h, q, n - 1), q)
  }

  /** What waits is sent in the order it came. */
  lemma {:induction false} DeliveredInOrder(h: Hub, q: QueueId, n: nat)
    requires q in h.queues && n <= |h.queues[q].pending|
    ensures var x, r := h.queues[q], DeliverN(h, q, n);
      r == h.(queues := h.queues[q := Queue(x.pending[n..], x.delivered + x.pending[..n], x.lost)])
  {
    var x := h.queues[q];
    if n == 0 {
      assert x.pending[0..] == x.pending && x.delivered + x.pending[..0] == x.delivered;
      assert h.queues == h.queues[q := x];
    } else {
      DeliveredInOrder(h, q, n - 1);
      assert x.pending[n - 1..][1..] == x.pending[n..];
      assert x.delivered + x.pending[..n - 1] + [x.pending[n - 1]] == x.delivered + x.pending[..n];
    }
  }

  const EMPTY := Hub(map[], map[], map[], map[])

  // ----- the program -----

  class Streams {
    var activeConnections: map<string, QueueId>
    var userConnections: map<int, seq<QueueId>>
    var eventBuffer: map<string, seq<Stamped>>
    var queues: map<QueueId, Queue>

    function View(): Hub
      reads this
    {
      Hub(activeConnections, userConnections, eventBuffer, queues)
    }

    constructor ()
      ensures View() == EMPTY
    {
      activeConnections, userConnections, eventBuffer, queues := map[], map[], map[], map[];
    }

    method BufferEvent(sid: string, x: Stamped)
      modifies this`eventBuffer
      ensures eventBuffer == old(eventBuffer)[sid := LastN(old(BufferOf(View(), sid)) + [x], BUFFER_MAX)]
    {
      if sid !in eventBuffer {
        eventBuffer := eventBuffer[sid := []];
      }
      eventBuffer := eventBuffer[sid := LastN(eventBuffer[sid] + [x], BUFFER_MAX)];
    }

    method Push(sid: string, e: Event, now: int)
      requires Registered(View())
      modifies this
      ensures BufferOf(View(), sid) == BufferOf(PushEvent(old(View()), sid, e, now), sid)
      ensures forall t :: t != sid ==> BufferOf(View(), t) == BufferOf(old(View()), t)
      ensures View().(buffer := map[]) == PushEvent(old(View()), sid, e, now).(buffer := map[])
      ensures OfferedTo(old(queues), queues, if sid in old(activeConnections) then [old(activeConnections)[sid]] else [], FromSession(e))
    {
      if sid in activeConnections {
        PutOffers(queues, activeConnections[sid], FromSession(e));
      }
      if KindOf(e).stream_start? {
        eventBuffer := eventBuffer - {sid};
      }
      if Buffered(KindOf(e)) {
        BufferEvent(sid, Stamped(now, e));
      }
      if sid in activeConnections {
        var q := activeConnections[sid];
        queues := queues[q := Put(queues[q], FromSession(e))];
      }
    }

    /** Registers a connection and replays the buffer; a full queue would end the replay, but
        200 buffered events never fill it. */
    method Open(q: QueueId, sid: string, uid: int, now: int)
      requires |BufferOf(View(), sid)| <= BUFFER_MAX
      modifies this
      ensures View() == Connect(old(View()), q, sid, uid, now)
    {
      activeConnections := activeConnections[sid := q];
      if uid !in userConnections {
        userConnections := userConnections[uid := []];
      }
      userConnections := userConnections[uid := userConnections[uid] + [q]];
      var queue := Queue([], [], false);
      if sid in eventBuffer {
        var buf := eventBuffer[sid];
        var i := 0;
        while i < |buf|
          invariant 0 <= i <= |buf|
          invariant queue == Queue(AsItems(Fresh(buf[..i], now)), [], false)
          invariant |Fresh(buf[..i], now)| <= i
        {
          assert buf[..i + 1][..i] == buf[..i];
          if now - buf[i].time <= BUFFER_TTL {
            if |queue.pending| >= QUEUE_MAX {
              break;
            }
            queue := Put(queue, FromSession(buf[i].event));
          }
          i := i + 1;
        }
        assert buf[..|buf|] == buf;
      }
      queues := queues[q := queue];
    }

    method Close(q: QueueId, sid: string, uid: int)
      modifies this
      ensures View().(users := map[]) == Disconnect(old(View()), q, sid, uid).(users := map[])
      ensures forall u :: UserQueues(View(), u) == UserQueues(Disconnect(old(View()), q, sid, uid), u)
    {
      if sid in activeConnections && activeConnections[sid] == q {
        activeConnections := activeConnections - {sid};
      }
      if uid in userConnections && userConnections[uid] != [] {
        userConnections := userConnections[uid := Without(userConnections[uid], q)];
        if userConnections[uid] == [] {
          userConnections := userConnections - {uid};
        }
      }
    }

    method PushUser(uid: int, e: Event)
      requires Registered(View())
      modifies this`queues
      ensures View() == PushUserEvent(old(View()), uid, e)
      ensures NoDuplicates(UserQueues(old(View()), uid)) ==>
        OfferedTo(old(queues), queues, UserQueues(old(View()), uid), FromUser(e))
    {
      if NoDuplicates(UserQueues(View(), uid)) {
        PutAllOffers(queues, UserQueues(View(), uid), FromUser(e));
      }
      hide PutAll, OfferedTo;
      var qs := if uid in userConnections then userConnections[uid] else [];
      OfferAll(qs, e);
    }

    method OfferAll(qs: seq<QueueId>, e: Event)
      requires forall j :: 0 <= j < |qs| ==> qs[j] in queues
      modifies this`queues
      ensures queues == PutAll(old(queues), qs, FromUser(e))
    {
      ghost var before := queues;
      var i := 0;
      assert qs[..0] == [];
      while i < |qs|
        invariant 0 <= i <= |qs|
        invariant forall j :: 0 <= j < |qs| ==> qs[j] in before
        invariant queues == PutAll(before, qs[..i], FromUser(e))
      {
        assert qs[..i + 1][..i] == qs[..i];
        queues := queues[qs[i] := Put(queues[qs[i]], FromUser(e))];
        i := i + 1;
      }
      assert qs[..i] == qs;
    }
  }
}
