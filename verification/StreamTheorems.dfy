/** Every interleaving of pushes, connections and disconnections. */
module StreamTheorems {
  import opened Wrappers
  import opened TodoPlan
  import opened StreamHub

  // ----- histories -----

  /** One connection: opened at time `at` when its session's log had `begin` events; it was the
      session's active connection until the log had `end` events, or still is. */
  datatype Conn = Conn(sid: string, uid: int, at: int, begin: nat, end: Option<nat>, open: bool)

  /** The hub, with everything pushed to each session and every connection ever made. */
  datatype Sys = Sys(hub: Hub, logs: map<string, seq<Stamped>>, conns: map<QueueId, Conn>, clock: int)

  const INIT := Sys(EMPTY, map[], map[], 0)

  function LogOf(s: Sys, sid: string): seq<Stamped> {
    if sid in s.logs then s.logs[sid] else []
  }

  datatype Step =
    | Push(sid: string, event: Event, now: int)
    | PushUser(uid: int, event: Event)
    | Open(queue: QueueId, sid: string, uid: int, now: int)
    | Close(queue: QueueId)
    | Send(queue: QueueId)

  /** A new connection makes a new queue, the clock is monotone, and a connection is closed once. */
  predicate Enabled(s: Sys, step: Step) {
    match step
    case Push(_, _, now) => s.clock <= now
    case PushUser(_, _) => true
    case Open(q, _, _, now) => q !in s.conns && s.clock <= now
    case Close(q) => q in s.conns && s.conns[q].open
    case Send(q) => q in s.conns && s.conns[q].open
  }

  /** Opening a connection ends the session's previous one. */
  function Supersede(conns: map<QueueId, Conn>, sid: string, n: nat): map<QueueId, Conn> {
    map q | q in conns ::
      if conns[q].sid == sid && conns[q].end.None? then conns[q].(end := Some(n)) else conns[q]
  }

  function Next(s: Sys, step: Step): Sys {
    match step
    case Push(sid, e, now) =>
      s.(hub := PushEvent(s.hub, sid, e, now), logs := s.logs[sid := LogOf(s, sid) + [Stamped(now, e)]], clock := now)
    case PushUser(uid, e) =>
      s.(hub := PushUserEvent(s.hub, uid, e))
    case Open(q, sid, uid, now) =>
      var n := |LogOf(s, sid)|;
      s.(hub := Connect(s.hub, q, sid, uid, now),
         conns := Supersede(s.conns, sid, n)[q := Conn(sid, uid, now, n, None, true)],
         clock := now)
    case Close(q) =>
      if q !in s.conns then s else
        var c := s.conns[q];
        s.(hub := Disconnect(s.hub, q, c.sid, c.uid),
           conns := s.conns[q := c.(open := false, end := if c.end.None? then Some(|LogOf(s, c.sid)|) else c.end)])
    case Send(q) =>
      s.(hub := Deliver(s.hub, q))
  }

  ghost predicate IsRun(states: seq<Sys>, steps: seq<Step>) {
    && |states| == |steps| + 1 && states[0] == INIT
    && forall i :: 0 <= i < |steps| ==> Enabled(states[i], steps[i]) && states[i + 1] == Next(states[i], steps[i])
  }

  // ----- what a session's log says -----

  /** Where the current turn begins: at the last `stream_start`. */
  function TurnStart(log: seq<Stamped>): (n: nat)
    ensures n <= |log|
  {
    if log == [] then 0
    else if KindOf(log[|log| - 1].event).stream_start? then |log| - 1
    else TurnStart(log[..|log| - 1])
  }

  function BufferedOnly(log: seq<Stamped>): (r: seq<Stamped>)
    ensures |r| <= |log|
  {
    if log == [] then [] else
      var x := log[|log| - 1];
      BufferedOnly(log[..|log| - 1]) + if Buffered(KindOf(x.event)) then [x] else []
  }

  /** The last 200 buffered events of the current turn. */
  function Recent(log: seq<Stamped>): (r: seq<Stamped>)
    ensures |r| <= BUFFER_MAX
  {
    LastN(BufferedOnly(log[TurnStart(log)..]), BUFFER_MAX)
  }

  function EventsOf(log: seq<Stamped>): (r: seq<Event>)
    ensures |r| == |log| && forall i :: 0 <= i < |r| ==> r[i] == log[i].event
  {
    seq(|log|, i requires 0 <= i < |log| => log[i].event)
  }

  function SessionPart(items: seq<Item>): seq<Event> {
    if items == [] then [] else
      var x := items[|items| - 1];
      SessionPart(items[..|items| - 1]) + if x.FromSession? then [x.event] else []
  }

  predicate Within(log: seq<Stamped>, c: Conn) {
    c.begin <= |log| && (c.end.Some? ==> c.begin <= c.end.value <= |log|)
  }

  /** What a connection must receive: the replay, then every push while it is active. */
  function Expected(log: seq<Stamped>, c: Conn): seq<Event>
    requires Within(log, c)
  {
    Fresh(Recent(log[..c.begin]), c.at)
    + EventsOf(log[c.begin..if c.end.Some? then c.end.value else |log|])
  }

  // ----- the invariant -----

  predicate Sorted(log: seq<Stamped>, now: int) {
    && (forall i, j :: 0 <= i < j < |log| ==> log[i].time <= log[j].time)
    && (forall i :: 0 <= i < |log| ==> log[i].time <= now)
  }

  predicate BufferRight(s: Sys, sid: string) {
    BufferOf(s.hub, sid) == Recent(LogOf(s, sid)) && Sorted(LogOf(s, sid), s.clock)
  }

  ghost predicate BuffersRight(s: Sys) {
    forall sid :: BufferRight(s, sid)
  }

  ghost predicate ActiveRight(s: Sys) {
    && (forall sid :: sid in s.hub.active ==>
          s.hub.active[sid] in s.conns && s.conns[s.hub.active[sid]].sid == sid && s.conns[s.hub.active[sid]].end.None?)
    && (forall q :: q in s.conns && s.conns[q].end.None? ==>
          s.conns[q].open && s.conns[q].sid in s.hub.active && s.hub.active[s.conns[q].sid] == q)
  }

  /** A user's list holds each of the user's open connections once. */
  ghost predicate UserRight(s: Sys, uid: int) {
    ListRight(UserQueues(s.hub, uid), s.conns, uid)
  }

  ghost predicate ListRight(qs: seq<QueueId>, conns: map<QueueId, Conn>, uid: int) {
    && NoDuplicates(qs)
    && forall q :: q in qs <==> q in conns && conns[q].open && conns[q].uid == uid
  }

  ghost predicate UsersRight(s: Sys) {
    forall uid :: UserRight(s, uid)
  }

  ghost predicate ConnRight(s: Sys, q: QueueId)
    requires q in s.conns
  {
    q in s.hub.queues && QueueRight(LogOf(s, s.conns[q].sid), s.hub.queues[q], s.conns[q])
  }

  /** A queue that refused no session event accepted exactly what its connection must receive. */
  predicate QueueRight(log: seq<Stamped>, x: Queue, c: Conn) {
    && Within(log, c)
    && (c.begin > 0 ==> log[c.begin - 1].time <= c.at)
    && |x.pending| <= QUEUE_MAX
    && (!x.lost ==> SessionPart(Accepted(x)) == Expected(log, c))
  }

  ghost predicate Inv(s: Sys) {
    && BuffersRight(s) && ActiveRight(s) && UsersRight(s)
    && s.hub.queues.Keys == s.conns.Keys
    && forall q :: q in s.conns ==> ConnRight(s, q)
  }

  // ----- buffers -----

  lemma RecentSnoc(log: seq<Stamped>, x: Stamped)
    ensures Recent(log + [x]) == Buffer(Recent(log), x)
  {
    var t := log + [x];
    assert t[..|log|] == log;
    if KindOf(x.event).stream_start? {
      assert t[|log|..] == [x] && [x][..0] == [];
    } else {
      var n := TurnStart(log);
      var turn := log[n..];
      assert t[n..] == turn + [x];
      assert (turn + [x])[..|turn|] == turn;
      var kept := BufferedOnly(turn);
      if Buffered(KindOf(x.event)) {
        assert LastN(kept + [x], BUFFER_MAX) == LastN(LastN(kept, BUFFER_MAX) + [x], BUFFER_MAX);
      } else {
        assert kept + [] == kept;
      }
    }
  }

  lemma SortedSnoc(log: seq<Stamped>, x: Stamped, now: int)
    requires Sorted(log, now) && now <= x.time
    ensures Sorted(log + [x], x.time)
  {
  }

  lemma StepBuffers(s: Sys, step: Step)
    requires BuffersRight(s) && Enabled(s, step)
    ensures BuffersRight(Next(s, step))
  {
    forall sid ensures BufferRight(Next(s, step), sid) {
      assert BufferRight(s, sid);
      hide BufferRight, Next;
      StepBuffer(s, step, sid);
    }
  }

  lemma StepBuffer(s: Sys, step: Step, sid: string)
    requires BufferRight(s, sid) && Enabled(s, step)
    ensures BufferRight(Next(s, step), sid)
  {
    var r := Next(s, step);
    if step.Push? && step.sid == sid {
      var x := Stamped(step.now, step.event);
      RecentSnoc(LogOf(s, sid), x);
      SortedSnoc(LogOf(s, sid), x, s.clock);
      hide Recent, Buffer, Sorted;
      assert LogOf(r, sid) == LogOf(s, sid) + [x];
    } else {
      SortedLater(LogOf(s, sid), s.clock, r.clock);
      hide Recent, Sorted;
      assert LogOf(r, sid) == LogOf(s, sid) && BufferOf(r.hub, sid) == BufferOf(s.hub, sid);
    }
  }

  lemma SortedLater(log: seq<Stamped>, now: int, later: int)
    requires Sorted(log, now) && now <= later
    ensures Sorted(log, later)
  {
  }

  // ----- registrations -----

  lemma OpenActive(s: Sys, q: QueueId, sid: string, uid: int, now: int)
    requires ActiveRight(s) && q !in s.conns
    ensures ActiveRight(Next(s, Open(q, sid, uid, now)))
  {
  }

  lemma CloseActive(s: Sys, q: QueueId)
    requires ActiveRight(s) && q in s.conns
    ensures ActiveRight(Next(s, Close(q)))
  {
  }

  lemma StepActive(s: Sys, step: Step)
    requires ActiveRight(s) && Enabled(s, step)
    ensures ActiveRight(Next(s, step))
  {
    match step
    case Open(q, sid, uid, now) => OpenActive(s, q, sid, uid, now);
    case Close(q) => CloseActive(s, q);
    case Push(_, _, _) =>
    case PushUser(_, _) =>
    case Send(_) =>
  }

  lemma {:induction false} WithoutIs(qs: seq<QueueId>, q: QueueId)
    requires NoDuplicates(qs)
    ensures NoDuplicates(Without(qs, q))
    ensures forall x :: x in Without(qs, q) <==> x in qs && x != q
  {
    if qs != [] {
      var rest := qs[1..];
      assert qs == [qs[0]] + rest;
      WithoutIs(rest, q);
      assert qs[0] !in rest;
    }
  }

  lemma StepUser(s: Sys, step: Step, uid: int)
    requires UserRight(s, uid) && Enabled(s, step)
    requires step.Close? ==> UserRight(s, s.conns[step.queue].uid)
    ensures UserRight(Next(s, step), uid)
  {
    if step.Open? {
      OpenUser(s, step.queue, step.sid, step.uid, step.now, uid);
    } else if step.Close? {
      CloseUser(s, step.queue, uid);
    } else {
      hide ListRight, PutAll, PutInto, Buffer;
    }
  }

  lemma OpenUser(s: Sys, q: QueueId, sid: string, u: int, now: int, uid: int)
    requires UserRight(s, uid) && q !in s.conns
    ensures UserRight(Next(s, Open(q, sid, u, now)), uid)
  {
    hide Fresh, AsItems, NoDuplicates;
    if uid == u { OneMoreQueue(UserQueues(s.hub, uid), q); }
  }

  lemma OneMoreQueue(qs: seq<QueueId>, q: QueueId)
    ensures forall x :: x in qs + [q] <==> x in qs || x == q
    ensures NoDuplicates(qs) && q !in qs ==> NoDuplicates(qs + [q])
  {
  }

  lemma CloseUser(s: Sys, q: QueueId, uid: int)
    requires UserRight(s, uid) && q in s.conns && UserRight(s, s.conns[q].uid)
    ensures UserRight(Next(s, Close(q)), uid)
  {
    WithoutIs(UserQueues(s.hub, s.conns[q].uid), q);
    hide Without, NoDuplicates;
  }

  lemma StepUsers(s: Sys, step: Step)
    requires UsersRight(s) && Enabled(s, step)
    ensures UsersRight(Next(s, step))
  {
    hide UserRight, Next;
    forall uid ensures UserRight(Next(s, step), uid) {
      assert UserRight(s, uid);
      if step.Close? { assert UserRight(s, s.conns[step.queue].uid); }
      StepUser(s, step, uid);
    }
  }

  // ----- what each connection has received -----

  lemma SessionPartSnoc(items: seq<Item>, x: Item)
    ensures SessionPart(items + [x]) == SessionPart(items) + if x.FromSession? then [x.event] else []
  {
  }

  lemma PutAccepts(q: Queue, item: Item)
    requires |q.pending| <= QUEUE_MAX
    ensures var r := Put(q, item);
      && |r.pending| <= QUEUE_MAX && (q.lost ==> r.lost)
      && (!r.lost ==> SessionPart(Accepted(r)) == SessionPart(Accepted(q)) + if item.FromSession? then [item.event] else [])
  {
    SessionPartSnoc(Accepted(q), item);
    assert q.delivered + (q.pending + [item]) == Accepted(q) + [item];
  }

  lemma {:induction false} PutAllAccepts(queues: map<QueueId, Queue>, qs: seq<QueueId>, e: Event, q: QueueId)
    requires q in queues && |queues[q].pending| <= QUEUE_MAX
    ensures var r := PutAll(queues, qs, FromUser(e));
      && |r[q].pending| <= QUEUE_MAX && r[q].lost == queues[q].lost
      && SessionPart(Accepted(r[q])) == SessionPart(Accepted(queues[q]))
  {
    if qs != [] {
      var before := PutAll(queues, qs[..|qs| - 1], FromUser(e));
      PutAllAccepts(queues, qs[..|qs| - 1], e, q);
      SessionPartSnoc(Accepted(before[q]), FromUser(e));
      assert before[q].delivered + (before[q].pending + [FromUser(e)]) == Accepted(before[q]) + [FromUser(e)];
    }
  }

  lemma ExpectedGrows(log: seq<Stamped>, x: Stamped, c: Conn)
    requires Within(log, c)
    ensures Within(log + [x], c)
    ensures Expected(log + [x], c) == Expected(log, c) + if c.end.None? then [x.event] else []
  {
    var t := log + [x];
    assert t[..c.begin] == log[..c.begin];
    if c.end.None? {
      assert t[c.begin..] == log[c.begin..] + [x];
      assert EventsOf(t[c.begin..]) == EventsOf(log[c.begin..]) + [x.event];
    } else {
      assert t[c.begin..c.end.value] == log[c.begin..c.end.value];
    }
  }

  lemma StepPush(s: Sys, step: Step, q: QueueId)
    requires Inv(s) && Enabled(s, step) && step.Push? && q in s.conns
    ensures ConnRight(Next(s, step), q)
  {
    var c := s.conns[q];
    assert ConnRight(s, q);
    hide Inv, ConnRight, Recent, Fresh, EventsOf, SessionPart, Buffer, Accepted, Within, Expected;
    if c.sid == step.sid {
      PushToSession(s, step.sid, step.event, step.now, q);
    } else {
      PushElsewhere(s, step.sid, step.event, step.now, q);
    }
  }

  lemma PushElsewhere(s: Sys, sid: string, e: Event, now: int, q: QueueId)
    requires q in s.conns && ConnRight(s, q) && s.conns[q].sid != sid
    requires ActiveRight(s)
    ensures ConnRight(Next(s, Push(sid, e, now)), q)
  {
    hide Recent, Fresh, EventsOf, SessionPart, Buffer;
    assert sid in s.hub.active ==> s.hub.active[sid] != q;
  }

  lemma PushToSession(s: Sys, sid: string, e: Event, now: int, q: QueueId)
    requires q in s.conns && ConnRight(s, q) && s.conns[q].sid == sid
    requires ActiveRight(s)
    ensures ConnRight(Next(s, Push(sid, e, now)), q)
  {
    PushedQueue(s, sid, e, now, q);
    PushRight(LogOf(s, sid), s.hub.queues[q], s.conns[q], e, now);
    hide Next, QueueRight, Put, ActiveRight, LogOf;
  }

  lemma PushRight(log: seq<Stamped>, x: Queue, c: Conn, e: Event, now: int)
    requires QueueRight(log, x, c)
    ensures QueueRight(log + [Stamped(now, e)], if c.end.None? then Put(x, FromSession(e)) else x, c)
  {
    PushedLog(log, Stamped(now, e), c);
    PutAccepts(x, FromSession(e));
    hide SessionPart, Expected, Accepted, Put, Within;
  }

  /** What a push to its session does to a connection. */
  lemma PushedQueue(s: Sys, sid: string, e: Event, now: int, q: QueueId)
    requires q in s.conns && q in s.hub.queues && s.conns[q].sid == sid && ActiveRight(s)
    ensures var r := Next(s, Push(sid, e, now));
      && r.conns == s.conns && LogOf(r, sid) == LogOf(s, sid) + [Stamped(now, e)] && q in r.hub.queues
      && r.hub.queues[q] == if s.conns[q].end.None? then Put(s.hub.queues[q], FromSession(e)) else s.hub.queues[q]
  {
    hide Buffer, Put;
    if s.conns[q].end.None? {
      assert s.hub.active[sid] == q;
    } else {
      assert sid in s.hub.active ==> s.hub.active[sid] != q;
    }
  }

  lemma PushedLog(log: seq<Stamped>, x: Stamped, c: Conn)
    requires Within(log, c)
    ensures Within(log + [x], c)
    ensures Expected(log + [x], c) == if c.end.None? then Expected(log, c) + [x.event] else Expected(log, c)
    ensures c.begin > 0 ==> (log + [x])[c.begin - 1] == log[c.begin - 1]
  {
    ExpectedGrows(log, x, c);
    hide Expected;
    assert Expected(log, c) + [] == Expected(log, c);
  }

  lemma {:induction false} AllSession(es: seq<Event>)
    ensures SessionPart(AsItems(es)) == es
  {
    if es != [] {
      AllSession(es[..|es| - 1]);
      assert AsItems(es)[..|es| - 1] == AsItems(es[..|es| - 1]);
    }
  }

  lemma {:induction false} FreshFits(buf: seq<Stamped>, now: int)
    ensures |Fresh(buf, now)| <= |buf|
  {
    if buf != [] { FreshFits(buf[..|buf| - 1], now); }
  }

  lemma OpenNew(s: Sys, q: QueueId, sid: string, uid: int, now: int)
    requires BufferRight(s, sid) && s.clock <= now
    ensures ConnRight(Next(s, Open(q, sid, uid, now)), q)
    ensures var x := Next(s, Open(q, sid, uid, now)).hub.queues[q]; !x.lost && |x.pending| <= BUFFER_MAX < QUEUE_MAX
  {
    var log := LogOf(s, sid);
    ReplayExactly(log, now);
    assert log == [] || log[|log| - 1].time <= now;
    hide Recent, Fresh, EventsOf, SessionPart, AsItems, Sorted;
    assert log[|log|..|log|] == log[|log|..];
  }

  lemma ReplayExactly(log: seq<Stamped>, now: int)
    ensures var es := Fresh(Recent(log), now);
      && |es| <= BUFFER_MAX
      && SessionPart([] + AsItems(es)) == es == Fresh(Recent(log[..|log|]), now) + EventsOf(log[|log|..])
  {
    var es := Fresh(Recent(log), now);
    AllSession(es);
    FreshFits(Recent(log), now);
    hide Recent, Fresh, SessionPart;
    assert log[..|log|] == log && EventsOf(log[|log|..]) == [] && es + [] == es;
    assert [] + AsItems(es) == AsItems(es);
  }

  /** Being superseded fixes what a connection must receive to what it has received so far. */
  lemma OpenOld(s: Sys, step: Step, q: QueueId)
    requires step.Open? && q in s.conns && q != step.queue && ConnRight(s, q)
    ensures ConnRight(Next(s, step), q)
  {
    var c := s.conns[q];
    StopHere(LogOf(s, c.sid), s.hub.queues[q], c);
    hide QueueRight, Fresh;
    assert Next(s, step).hub.queues[q] == s.hub.queues[q];
  }

  lemma UserPushKeeps(s: Sys, uid: int, e: Event, q: QueueId)
    requires q in s.conns && ConnRight(s, q)
    ensures ConnRight(Next(s, PushUser(uid, e)), q)
  {
    PutAllAccepts(s.hub.queues, UserQueues(s.hub, uid), e, q);
  }

  lemma SendKeeps(s: Sys, p: QueueId, q: QueueId)
    requires q in s.conns && ConnRight(s, q)
    ensures ConnRight(Next(s, Send(p)), q)
  {
    hide SessionPart, Expected, Within;
    var x := s.hub.queues[q];
    if p == q && x.pending != [] {
      FirstSent(x.delivered, x.pending);
    }
  }

  lemma FirstSent(delivered: seq<Item>, pending: seq<Item>)
    requires pending != []
    ensures (delivered + [pending[0]]) + pending[1..] == delivered + pending
  {
  }

  lemma CloseKeeps(s: Sys, p: QueueId, q: QueueId)
    requires p in s.conns && q in s.conns && ConnRight(s, q)
    ensures ConnRight(Next(s, Close(p)), q)
  {
    var c := s.conns[q];
    StopHere(LogOf(s, c.sid), s.hub.queues[q], c);
    hide QueueRight, Disconnect;
    assert Next(s, Close(p)).hub.queues == s.hub.queues by { ClosingKeepsQueues(s.hub, p, s.conns[p].sid, s.conns[p].uid); }
  }

  lemma ClosingKeepsQueues(h: Hub, q: QueueId, sid: string, uid: int)
    ensures Disconnect(h, q, sid, uid).queues == h.queues
  {
  }

  /** Ending a connection fixes what it must receive to what it has received so far. */
  lemma StopHere(log: seq<Stamped>, x: Queue, c: Conn)
    requires QueueRight(log, x, c)
    ensures QueueRight(log, x, c.(open := false))
    ensures c.end.None? ==> QueueRight(log, x, c.(end := Some(|log|))) && QueueRight(log, x, c.(open := false, end := Some(|log|)))
  {
    hide Recent, Fresh, EventsOf, SessionPart, Accepted;
    assert log[c.begin..|log|] == log[c.begin..];
  }

  lemma StepConn(s: Sys, step: Step, q: QueueId)
    requires Inv(s) && Enabled(s, step) && q in Next(s, step).conns
    ensures ConnRight(Next(s, step), q)
  {
    if q in s.conns { assert ConnRight(s, q); }
    match step
    case Push(_, _, _) => StepPush(s, step, q);
    case PushUser(uid, e) => UserPushKeeps(s, uid, e, q);
    case Open(p, sid, uid, now) =>
      if p == q {
        assert BufferRight(s, sid);
        OpenNew(s, q, sid, uid, now);
      } else {
        OpenOld(s, step, q);
      }
    case Close(p) => CloseKeeps(s, p, q);
    case Send(p) => SendKeeps(s, p, q);
  }

  lemma StepKeys(s: Sys, step: Step)
    requires s.hub.queues.Keys == s.conns.Keys && Enabled(s, step)
    requires ActiveRight(s)
    ensures Next(s, step).hub.queues.Keys == Next(s, step).conns.Keys
  {
  }

  lemma StepInv(s: Sys, step: Step)
    requires Inv(s) && Enabled(s, step)
    ensures Inv(Next(s, step))
  {
    var r := Next(s, step);
    StepBuffers(s, step);
    StepActive(s, step);
    StepUsers(s, step);
    StepKeys(s, step);
    forall q | q in r.conns ensures ConnRight(r, q) {
      StepConn(s, step, q);
    }
  }

  // ----- main results -----

  /** In every state of every run: the buffer is the last 200 buffered events of the turn, the
      registries are right, and a queue that never refused a session event has accepted
      exactly the replay and then everything pushed while it was active. */
  lemma {:induction false} RunTheorem(states: seq<Sys>, steps: seq<Step>, n: nat)
    requires IsRun(states, steps) && n < |states|
    ensures Inv(states[n])
  {
    if n > 0 {
      RunTheorem(states, steps, n - 1);
      StepInv(states[n - 1], steps[n - 1]);
    }
  }

  /** So in every such state the hub's methods may be called: each registered queue exists, and no
      buffer can fill a new queue. */
  lemma InvPermits(s: Sys, sid: string)
    requires Inv(s)
    ensures Registered(s.hub) && |BufferOf(s.hub, sid)| <= BUFFER_MAX < QUEUE_MAX
  {
    assert BufferRight(s, sid);
    forall uid, i | uid in s.hub.users && 0 <= i < |s.hub.users[uid]|
      ensures s.hub.users[uid][i] in s.hub.queues
    {
      assert UserRight(s, uid);
      assert s.hub.users[uid][i] in UserQueues(s.hub, uid);
    }
  }

  /** The replay is a suffix of the buffer, because the clock is monotone. */
  lemma {:induction false} FreshIsSuffix(buf: seq<Stamped>, now: int) returns (k: nat)
    requires Sorted(buf, now)
    ensures k <= |buf| && Fresh(buf, now) == EventsOf(buf[k..])
    ensures forall i :: 0 <= i < |buf| ==> (i >= k <==> now - buf[i].time <= BUFFER_TTL)
  {
    if buf == [] {
      return 0;
    }
    var init, x := buf[..|buf| - 1], buf[|buf| - 1];
    if now - x.time > BUFFER_TTL {
      AllStale(buf, now);
      k := |buf|;
    } else {
      k := FreshIsSuffix(init, now);
      FreshSnoc(buf, now, k);
      forall i | 0 <= i < |buf| ensures i >= k <==> now - buf[i].time <= BUFFER_TTL {
        if i < |init| { assert init[i] == buf[i]; }
      }
    }
  }

  lemma {:induction false} AllStale(buf: seq<Stamped>, now: int)
    requires Sorted(buf, now) && (buf != [] ==> now - buf[|buf| - 1].time > BUFFER_TTL)
    ensures Fresh(buf, now) == []
  {
    if buf != [] { AllStale(buf[..|buf| - 1], now); }
  }

  lemma FreshSnoc(buf: seq<Stamped>, now: int, k: nat)
    requires buf != [] && now - buf[|buf| - 1].time <= BUFFER_TTL
    requires k < |buf| && Fresh(buf[..|buf| - 1], now) == EventsOf(buf[..|buf| - 1][k..])
    ensures Fresh(buf, now) == EventsOf(buf[k..])
  {
    var init, x := buf[..|buf| - 1], buf[|buf| - 1];
    assert buf[k..] == init[k..] + [x];
    assert Fresh(buf, now) == Fresh(init, now) + [x.event];
    hide Fresh;
    assert EventsOf(buf[k..]) == EventsOf(init[k..]) + [x.event];
  }

  /** In every reachable state an event for a user is offered once to each of the user's open connections,
      and one for a session to its active connection, and to no other queue. */
  lemma OfferedOnce(s: Sys, step: Step)
    requires Inv(s) && (step.Push? || step.PushUser?)
    ensures var before, after := s.hub.queues, Next(s, step).hub.queues;
      var item := if step.Push? then FromSession(step.event) else FromUser(step.event);
      && after.Keys == before.Keys == s.conns.Keys
      && forall q :: q in s.conns ==>
           var c := s.conns[q];
           if (if step.Push? then c.sid == step.sid && c.end.None? else c.uid == step.uid && c.open)
           then Offered(before[q], after[q], item)
           else after[q] == before[q]
  {
    hide BuffersRight, ConnRight, Offered, PutAll, PutInto;
    match step
    case Push(sid, e, _) =>
      if sid in s.hub.active { PutOffers(s.hub.queues, s.hub.active[sid], FromSession(e)); }
    case PushUser(uid, e) =>
      assert UserRight(s, uid);
      PutAllOffers(s.hub.queues, UserQueues(s.hub, uid), FromUser(e));
  }

  /** Closing a superseded connection leaves the newer one registered. */
  lemma LateCloseIsHarmless(s: Sys, q: QueueId)
    requires Inv(s) && q in s.conns && s.conns[q].open && s.conns[q].end.Some?
    ensures Next(s, Close(q)).hub.active == s.hub.active
  {
  }

  // ----- a reconnecting client shows the server's plan -----

  /** The plan events among a client's events. */
  function News(es: seq<Event>): seq<PlanEvent> {
    if es == [] then [] else
      var e := es[|es| - 1];
      News(es[..|es| - 1]) + if e.PlanNews? then [e.plan] else []
  }

  predicate IsSuffix<T(==)>(a: seq<T>, b: seq<T>) {
    |a| <= |b| && b[|b| - |a|..] == a
  }

  lemma {:induction false} NewsConcat(a: seq<Event>, b: seq<Event>)
    ensures News(a + b) == News(a) + News(b)
  {
    if b == [] {
      assert a + b == a && News(a) + [] == News(a);
    } else {
      NewsConcat(a, b[..|b| - 1]);
      assert (a + b)[..|a + b| - 1] == a + b[..|b| - 1];
    }
  }

  lemma NewsOfSuffix(log: seq<Stamped>, k: nat)
    requires k <= |log|
    ensures IsSuffix(News(EventsOf(log[k..])), News(EventsOf(log)))
  {
    assert EventsOf(log) == EventsOf(log[..k]) + EventsOf(log[k..]);
    NewsConcat(EventsOf(log[..k]), EventsOf(log[k..]));
  }

  lemma {:induction false} NewsIsBuffered(log: seq<Stamped>)
    ensures News(EventsOf(BufferedOnly(log))) == News(EventsOf(log))
  {
    if log != [] {
      var init, x := log[..|log| - 1], log[|log| - 1];
      NewsIsBuffered(init);
      assert EventsOf(log)[..|log| - 1] == EventsOf(init);
      var kept := BufferedOnly(init);
      if Buffered(KindOf(x.event)) {
        assert EventsOf(kept + [x])[..|kept|] == EventsOf(kept);
      } else {
        assert kept + [] == kept;
      }
    }
  }

  /** The plan events of a replay are the latest plan events of the log. */
  lemma ReplayNews(log: seq<Stamped>, now: int, at: int)
    requires Sorted(log, now) && now <= at
    ensures IsSuffix(News(Fresh(Recent(log), at)), News(EventsOf(log)))
  {
    var turn := log[TurnStart(log)..];
    BufferedSorted(turn, at);
    var kept := BufferedOnly(turn);
    var m := if |kept| <= BUFFER_MAX then 0 else |kept| - BUFFER_MAX;
    assert Recent(log) == kept[m..];
    hide Recent, BufferedOnly, Sorted, TurnStart;
    LatestNews(kept, m, at);
    NewsIsBuffered(turn);
    NewsOfSuffix(log, TurnStart(log));
    hide News, Fresh, EventsOf;
    SuffixOfSuffix(News(Fresh(Recent(log), at)), News(EventsOf(turn)), News(EventsOf(log)));
  }

  lemma LatestNews(kept: seq<Stamped>, m: nat, at: int)
    requires m <= |kept| && Sorted(kept, at)
    ensures IsSuffix(News(Fresh(kept[m..], at)), News(EventsOf(kept)))
  {
    SortedTail(kept, m, at);
    hide Sorted, Fresh, News, EventsOf, IsSuffix;
    var k := FreshIsSuffix(kept[m..], at);
    TailOfTail(kept, m, k);
    NewsOfSuffix(kept, m + k);
  }

  lemma SortedTail(log: seq<Stamped>, m: nat, now: int)
    requires m <= |log| && Sorted(log, now)
    ensures Sorted(log[m..], now)
  {
  }

  lemma TailOfTail(log: seq<Stamped>, m: nat, k: nat)
    requires m <= |log| && k <= |log[m..]|
    ensures log[m..][k..] == log[m + k..]
  {
  }

  lemma {:induction false} BufferedSorted(log: seq<Stamped>, now: int)
    requires Sorted(log, now)
    ensures Sorted(BufferedOnly(log), now)
    ensures forall i :: 0 <= i < |BufferedOnly(log)| && log != [] ==> BufferedOnly(log)[i].time <= log[|log| - 1].time
  {
    if log != [] {
      BufferedSorted(log[..|log| - 1], now);
    }
  }

  lemma SuffixOfSuffix<T>(a: seq<T>, b: seq<T>, c: seq<T>)
    requires IsSuffix(a, b) && IsSuffix(b, c)
    ensures IsSuffix(a, c)
  {
  }

  lemma SuffixGrows<T>(a: seq<T>, b: seq<T>, c: seq<T>)
    requires IsSuffix(a, b)
    ensures IsSuffix(a + c, b + c)
  {
  }

  lemma ExpectedNews(log: seq<Stamped>, begin: nat, at: int, now: int)
    requires begin <= |log| && Sorted(log, now) && (begin > 0 ==> log[begin - 1].time <= at)
    ensures IsSuffix(News(Fresh(Recent(log[..begin]), at) + EventsOf(log[begin..])), News(EventsOf(log)))
  {
    var old_, new_ := log[..begin], EventsOf(log[begin..]);
    var replay := Fresh(Recent(old_), at);
    assert Sorted(old_, at);
    ReplayNews(old_, at, at);
    assert EventsOf(log) == EventsOf(old_) + new_;
    NewsConcat(EventsOf(old_), new_);
    NewsConcat(replay, new_);
    SuffixGrows(News(replay), News(EventsOf(old_)), News(new_));
  }

  lemma ActiveNews(log: seq<Stamped>, c: Conn, now: int)
    requires Within(log, c) && c.end.None? && Sorted(log, now)
    requires c.begin > 0 ==> log[c.begin - 1].time <= c.at
    ensures IsSuffix(News(Expected(log, c)), News(EventsOf(log)))
  {
    hide Recent, Fresh, EventsOf, News, IsSuffix, Sorted;
    assert log[c.begin..|log|] == log[c.begin..];
    ExpectedNews(log, c.begin, c.at, now);
  }

  /** What an active client was sent holds exactly the latest plan events of its session. */
  lemma ReceivedNews(s: Sys, q: QueueId)
    requires Inv(s) && q in s.conns && s.conns[q].end.None? && !s.hub.queues[q].lost
    ensures IsSuffix(News(SessionPart(Accepted(s.hub.queues[q]))), News(EventsOf(LogOf(s, s.conns[q].sid))))
  {
    var c := s.conns[q];
    var log := LogOf(s, c.sid);
    assert ConnRight(s, q) && BufferRight(s, c.sid);
    hide Inv, SessionPart, News, IsSuffix, Accepted, Sorted, Expected;
    ActiveNews(log, c, s.clock);
  }

  lemma {:induction false} LatestShowsPlan(got: seq<PlanEvent>, ops: seq<Op>, shown: Option<Plan>)
    requires forall i :: 0 <= i < |ops| ==> TextOnly(ops[i])
    requires IsSuffix(got, Run([], ops).events) && HasSnapshot(got)
    ensures AllText(Run([], ops).todos)
    ensures Fold(shown, got) == Some(PlanOf(Run([], ops).todos))
  {
    hide Run, Fold, AllText, TextOnly;
    RunMirrors(ops);
    var log := Run([], ops).events;
    var cut := |log| - |got|;
    SuffixMirrors(log, cut, shown, shown);
    var i :| 0 <= i < |got| && IsSnapshot(got[i]);
    assert IsSnapshot(log[cut + i]);
  }

  /** End to end: when a session's plan events came from a run of TodoWrite and force-complete
      calls over string contents, a connected client that lost nothing and has been sent
      any snapshot at all shows the server's list, whatever plan it showed before. */
  lemma ReconnectShowsPlan(s: Sys, q: QueueId, ops: seq<Op>, shown: Option<Plan>)
    requires Inv(s) && q in s.conns && s.conns[q].end.None? && !s.hub.queues[q].lost
    requires forall i :: 0 <= i < |ops| ==> TextOnly(ops[i])
    requires News(EventsOf(LogOf(s, s.conns[q].sid))) == Run([], ops).events
    requires HasSnapshot(News(SessionPart(Accepted(s.hub.queues[q]))))
    ensures AllText(Run([], ops).todos)
    ensures Fold(shown, News(SessionPart(Accepted(s.hub.queues[q])))) == Some(PlanOf(Run([], ops).todos))
  {
    ReceivedNews(s, q);
    LatestShowsPlan(News(SessionPart(Accepted(s.hub.queues[q]))), ops, shown);
  }
}
