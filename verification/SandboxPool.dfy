/** The manager of the users' sandbox containers. What Docker answers is a parameter. */
module SandboxPool {
  import opened Wrappers

  type Cid = nat
  type User = nat

  datatype Limits = Limits(perUser: nat, total: nat, idleTimeout: nat)

  /** The manager's fields: whether its client exists, each user's containers in creation order,
      and when each container was last used. */
  datatype State = State(connected: bool, users: map<User, seq<Cid>>, activity: map<Cid, int>)

  const START := State(false, map[], map[])

  /** What Docker does during one request: whether the daemon is reachable, which containers
      exist and which of them run, how many there are before and after a cleanup, and the
      container it starts, if it does. */
  datatype Docker = Docker(reachable: bool, running: map<Cid, bool>, count: nat, countAfter: nat, started: Option<Cid>)

  datatype Outcome = Reused(cid: Cid) | Created(cid: Cid) | NoDocker | PoolFull | UserFull | HandlerRaised | StartFailed

  datatype Answer = Answer(state: State, outcome: Outcome)

  function ListOf(s: State, user: User): seq<Cid> {
    if user in s.users then s.users[user] else []
  }

  function Minus(cs: seq<Cid>, gone: set<Cid>): seq<Cid> {
    if cs == [] then [] else Minus(cs[..|cs| - 1], gone) + if cs[|cs| - 1] in gone then [] else [cs[|cs| - 1]]
  }

  function Without(users: map<User, seq<Cid>>, gone: set<Cid>): map<User, seq<Cid>> {
    map u | u in users :: Minus(users[u], gone)
  }

  /** Containers not used since `cutoff`. */
  function Idle(activity: map<Cid, int>, cutoff: int): set<Cid> {
    set c | c in activity && activity[c] < cutoff
  }

  function Cleaned(s: State, cutoff: int): State {
    if !s.connected then s
    else
      var gone := Idle(s.activity, cutoff);
      s.(users := Without(s.users, gone), activity := s.activity - gone)
  }

  /** A timeout of 0 means the configured one. */
  function Cutoff(timeout: nat, lim: Limits, now: int): int {
    now - 60 * (if timeout == 0 then lim.idleTimeout else timeout)
  }

  // ----- one user, one container at a time -----

  /** The first of the user's containers that runs, unless one before it is gone: then the handler
      itself raises, because it names a module that is not in scope. */
  datatype Look = Hit(cid: Cid) | Miss | Gone

  function FirstRunning(cs: seq<Cid>, running: map<Cid, bool>): Look {
    if cs == [] then Miss
    else if cs[0] !in running then Gone
    else if running[cs[0]] then Hit(cs[0])
    else FirstRunning(cs[1..], running)
  }

  function Touched(s: State, c: Cid, now: int): State {
    s.(activity := s.activity[c := now])
  }

  function GetOrCreate(s: State, lim: Limits, user: User, d: Docker, now: int): Answer {
    if !s.connected && !d.reachable then Answer(s, NoDocker)
    else
      var s1 := s.(connected := true);
      match FirstRunning(ListOf(s1, user), d.running)
      case Gone => Answer(s1, HandlerRaised)
      case Hit(c) => Answer(Touched(s1, c, now), Reused(c))
      case Miss =>
        var s2 := if d.count >= lim.total then Cleaned(s1, Cutoff(0, lim, now)) else s1;
        if d.count >= lim.total && d.countAfter >= lim.total then Answer(s2, PoolFull)
        else if |ListOf(s2, user)| >= lim.perUser then Answer(s2, UserFull)
        else if d.started.None? then Answer(s2, StartFailed)
        else
          var c := d.started.value;
          Answer(Touched(s2.(users := s2.users[user := ListOf(s2, user) + [c]]), c, now), Created(c))
  }

  /** Running code marks the container as used, if Docker knows it. */
  function Execute(s: State, c: Cid, d: Docker, now: int): State {
    if !s.connected && !d.reachable then s
    else if c in d.running then Touched(s.(connected := true), c, now)
    else s.(connected := true)
  }

  // ----- every run -----

  datatype Op = Get(user: User, docker: Docker, now: int) | Exec(cid: Cid, docker: Docker, now: int) | Cleanup(timeout: nat, now: int)

  function Next(s: State, lim: Limits, op: Op): State {
    match op
    case Get(user, d, now) => GetOrCreate(s, lim, user, d, now).state
    case Exec(c, d, now) => Execute(s, c, d, now)
    case Cleanup(timeout, now) => Cleaned(s, Cutoff(timeout, lim, now))
  }

  function Run(lim: Limits, ops: seq<Op>): State {
    if ops == [] then START else Next(Run(lim, ops[..|ops| - 1]), lim, ops[|ops| - 1])
  }

  /** Docker starts containers under ids not in use. */
  predicate NewId(s: State, d: Docker) {
    d.started.Some? ==> d.started.value !in s.activity
  }

  predicate NewIds(lim: Limits, ops: seq<Op>) {
    forall i :: 0 <= i < |ops| && ops[i].Get? ==> NewId(Run(lim, ops[..i]), ops[i].docker)
  }

  predicate NoDuplicates(cs: seq<Cid>) {
    forall i, j :: 0 <= i < j < |cs| ==> cs[i] != cs[j]
  }

  /** One user's list: no container twice, each with a time, within the cap. */
  predicate ListGood(cs: seq<Cid>, activity: map<Cid, int>, lim: Limits) {
    NoDuplicates(cs) && |cs| <= lim.perUser && forall c :: c in cs ==> c in activity
  }

  ghost predicate Disjoint(users: map<User, seq<Cid>>) {
    forall u, v, c :: u in users && v in users && c in users[u] && c in users[v] ==> u == v
  }

  ghost predicate Good(s: State, lim: Limits) {
    && (forall u :: u in s.users ==> ListGood(s.users[u], s.activity, lim))
    && Disjoint(s.users)
  }

  lemma {:induction false} MinusIs(cs: seq<Cid>, gone: set<Cid>)
    ensures |Minus(cs, gone)| <= |cs|
    ensures forall c :: c in Minus(cs, gone) <==> c in cs && c !in gone
    ensures NoDuplicates(cs) ==> NoDuplicates(Minus(cs, gone))
  {
    if cs != [] {
      var init, c := cs[..|cs| - 1], cs[|cs| - 1];
      MinusIs(init, gone);
      assert cs == init + [c];
      if NoDuplicates(cs) {
        assert c !in init;
        SnocNoDuplicates(Minus(init, gone), c);
      }
    }
  }

  /** The containers that stay keep their order. */
  lemma {:induction false} MinusConcat(a: seq<Cid>, b: seq<Cid>, gone: set<Cid>)
    ensures Minus(a + b, gone) == Minus(a, gone) + Minus(b, gone)
  {
    hide Minus;
    if b == [] {
      MinusOfNone(gone);
      assert a + b == a;
    } else {
      var init, c := b[..|b| - 1], b[|b| - 1];
      MinusConcat(a, init, gone);
      assert a + b == (a + init) + [c];
      MinusSnoc(a + init, c, gone);
      MinusSnoc(init, c, gone);
      assert b == init + [c];
    }
  }

  lemma MinusOfNone(gone: set<Cid>)
    ensures Minus([], gone) == []
  {
  }

  lemma MinusSnoc(cs: seq<Cid>, c: Cid, gone: set<Cid>)
    ensures Minus(cs + [c], gone) == Minus(cs, gone) + if c in gone then [] else [c]
    ensures Minus([c], gone) == if c in gone then [] else [c]
  {
    assert (cs + [c])[..|cs|] == cs && [c][..0] == [];
  }

  lemma SnocNoDuplicates(cs: seq<Cid>, c: Cid)
    requires NoDuplicates(cs) && c !in cs
    ensures NoDuplicates(cs + [c])
  {
  }

  lemma CleanedGood(s: State, lim: Limits, cutoff: int)
    requires Good(s, lim)
    ensures Good(Cleaned(s, cutoff), lim)
  {
    var gone := Idle(s.activity, cutoff);
    forall u | u in s.users
      ensures ListGood(Minus(s.users[u], gone), s.activity - gone, lim)
      ensures forall c :: c in Minus(s.users[u], gone) ==> c in s.users[u]
    {
      MinusIs(s.users[u], gone);
    }
  }

  lemma TouchedGood(s: State, lim: Limits, c: Cid, now: int)
    requires Good(s, lim)
    ensures Good(Touched(s, c, now), lim)
  {
  }

  lemma AddedGood(s: State, lim: Limits, user: User, c: Cid, now: int)
    requires Good(s, lim) && c !in s.activity && |ListOf(s, user)| < lim.perUser
    ensures Good(Touched(s.(users := s.users[user := ListOf(s, user) + [c]]), c, now), lim)
  {
  }

  lemma NextGood(s: State, lim: Limits, op: Op)
    requires Good(s, lim) && (op.Get? ==> NewId(s, op.docker))
    ensures Good(Next(s, lim, op), lim)
  {
    var s1 := s.(connected := true);
    assert Good(s1, lim);
    hide Good;
    match op
    case Cleanup(timeout, now) => CleanedGood(s, lim, Cutoff(timeout, lim, now));
    case Exec(c, d, now) => TouchedGood(s1, lim, c, now);
    case Get(user, d, now) =>
      CleanedGood(s1, lim, Cutoff(0, lim, now));
      match FirstRunning(ListOf(s1, user), d.running) {
        case Gone =>
        case Hit(c) => TouchedGood(s1, lim, c, now);
        case Miss =>
          var s2 := if d.count >= lim.total then Cleaned(s1, Cutoff(0, lim, now)) else s1;
          if d.started.Some? && |ListOf(s2, user)| < lim.perUser {
            AddedGood(s2, lim, user, d.started.value, now);
          }
      }
  }

  // ----- main results -----

  /** In every state of every run each listed container belongs to one user, is listed once and has
      an activity time, and no user has more than the cap. */
  lemma {:induction false} RunGood(lim: Limits, ops: seq<Op>)
    requires NewIds(lim, ops)
    ensures Good(Run(lim, ops), lim)
  {
    if ops != [] {
      var init := ops[..|ops| - 1];
      forall i | 0 <= i < |init| && init[i].Get? ensures NewId(Run(lim, init[..i]), init[i].docker) {
        assert init[..i] == ops[..i];
      }
      RunGood(lim, init);
      NextGood(Run(lim, init), lim, ops[|ops| - 1]);
    }
  }

  /** After a cleanup exactly the containers used at or after the cutoff remain, with their times, in
      both maps; so nobody's list holds an idle container, and a user none of whose containers
      was used since has room again. */
  lemma CleanupExact(s: State, lim: Limits, timeout: nat, now: int)
    requires Good(s, lim) && s.connected
    ensures var r := Next(s, lim, Cleanup(timeout, now));
      var cutoff := now - (if timeout == 0 then lim.idleTimeout else timeout) * 60;
      && (forall c :: c in r.activity <==> c in s.activity && s.activity[c] >= cutoff)
      && (forall c :: c in r.activity ==> r.activity[c] == s.activity[c])
      && r.users.Keys == s.users.Keys
      && (forall u: User :: forall c :: c in ListOf(r, u) <==> c in ListOf(s, u) && s.activity[c] >= cutoff)
  {
    var cutoff := Cutoff(timeout, lim, now);
    assert Next(s, lim, Cleanup(timeout, now)) == Cleaned(s, cutoff);
    forall u: User
      ensures forall c :: c in ListOf(Cleaned(s, cutoff), u) <==> c in ListOf(s, u) && s.activity[c] >= cutoff
    {
      CleanedList(s, lim, cutoff, u);
    }
  }

  /** Without a client a cleanup does nothing; with one it leaves each list in its order. */
  lemma CleanupKeepsOrder(s: State, lim: Limits, timeout: nat, now: int, u: User)
    ensures var r := Next(s, lim, Cleanup(timeout, now));
      var cutoff := now - (if timeout == 0 then lim.idleTimeout else timeout) * 60;
      && (!s.connected ==> r == s)
      && (s.connected ==> r.connected && ListOf(r, u) == Minus(ListOf(s, u), set c | c in s.activity && s.activity[c] < cutoff))
  {
  }

  lemma CleanedList(s: State, lim: Limits, cutoff: int, u: User)
    requires Good(s, lim) && s.connected
    ensures forall c :: c in ListOf(s, u) ==> c in s.activity
    ensures forall c :: c in ListOf(Cleaned(s, cutoff), u) <==> c in ListOf(s, u) && s.activity[c] >= cutoff
  {
    if u in s.users {
      assert ListGood(s.users[u], s.activity, lim);
      MinusIs(s.users[u], Idle(s.activity, cutoff));
    }
  }

  /** Container number `k` runs, and those before it exist and do not run. */
  predicate FirstAt(cs: seq<Cid>, running: map<Cid, bool>, k: int) {
    && 0 <= k < |cs| && cs[k] in running && running[cs[k]]
    && forall i :: 0 <= i < k ==> cs[i] in running && !running[cs[i]]
  }

  /** Container number `k` is gone, and those before it exist and do not run. */
  predicate MissingAt(cs: seq<Cid>, running: map<Cid, bool>, k: int) {
    && 0 <= k < |cs| && cs[k] !in running
    && forall i :: 0 <= i < k ==> cs[i] in running && !running[cs[i]]
  }

  lemma {:induction false} FirstRunningIs(cs: seq<Cid>, running: map<Cid, bool>)
    ensures match FirstRunning(cs, running)
      case Hit(c) => exists k :: FirstAt(cs, running, k) && cs[k] == c
      case Miss => forall c :: c in cs ==> c in running && !running[c]
      case Gone => exists k :: MissingAt(cs, running, k)
  {
    if cs == [] {
    } else if cs[0] !in running || running[cs[0]] {
      assert if cs[0] in running then FirstAt(cs, running, 0) else MissingAt(cs, running, 0);
    } else {
      var rest := cs[1..];
      FirstRunningIs(rest, running);
      assert cs == [cs[0]] + rest;
      var look := FirstRunning(rest, running);
      if look.Hit? {
        var k :| FirstAt(rest, running, k) && rest[k] == look.cid;
        assert FirstAt(cs, running, k + 1);
      } else if look.Gone? {
        var k :| MissingAt(rest, running, k);
        assert MissingAt(cs, running, k + 1);
      }
    }
  }

  /** The container handed out is the user's own: one of theirs that runs, or a new one, for which
      there was room; and no other user's list has changed unless the pool was cleaned. */
  lemma HandedOutIsOwn(s: State, lim: Limits, user: User, d: Docker, now: int)
    requires Good(s, lim) && NewId(s, d)
    ensures var a := GetOrCreate(s, lim, user, d, now);
      && (a.outcome.Reused? ==>
            && a.outcome.cid in ListOf(s, user) && a.outcome.cid in d.running && d.running[a.outcome.cid]
            && a.state.users == s.users)
      && (a.outcome.Created? ==>
            && a.outcome.cid in ListOf(a.state, user) && |ListOf(a.state, user)| <= lim.perUser
            && forall u :: u in s.users ==> a.outcome.cid !in s.users[u])
      && (a.outcome.Reused? || a.outcome.Created? ==> a.outcome.cid in a.state.activity && a.state.activity[a.outcome.cid] == now)
      && (d.count < lim.total ==> forall u :: u != user ==> ListOf(a.state, u) == ListOf(s, u))
  {
    FirstRunningIs(ListOf(s, user), d.running);
    assert forall u :: u in s.users ==> ListGood(s.users[u], s.activity, lim);
    hide NoDuplicates, Disjoint, Cleaned;
  }

  /** Every container of the user's exists and none of them runs. */
  predicate AllStopped(cs: seq<Cid>, running: map<Cid, bool>) {
    forall c :: c in cs ==> c in running && !running[c]
  }

  /** What was not used in the last `idleTimeout` minutes. */
  function Unused(s: State, lim: Limits, now: int): set<Cid> {
    set c | c in s.activity && now - s.activity[c] > 60 * lim.idleTimeout
  }

  /** What is left on the user's list when a full pool has been cleaned of that. */
  function Remaining(s: State, lim: Limits, user: User, d: Docker, now: int): seq<Cid> {
    if d.count < lim.total then ListOf(s, user)
    else Minus(ListOf(s, user), Unused(s, lim, now))
  }

  /** How a request ends. Without Docker nothing happens; the first container that runs is handed out, if those
      before it exist, and marked as used; and a full pool refuses when a cleanup makes no room. */
  lemma RequestIs(s: State, lim: Limits, user: User, d: Docker, now: int)
    ensures var a, cs := GetOrCreate(s, lim, user, d, now), ListOf(s, user);
      var there := s.connected || d.reachable;
      && (a.outcome == NoDocker <==> !there) && (!there ==> a.state == s) && (there ==> a.state.connected)
      && (forall k :: there && FirstAt(cs, d.running, k) ==>
            a == Answer(State(true, s.users, s.activity[cs[k] := now]), Reused(cs[k])))
      && (a.outcome.Reused? ==> exists k :: FirstAt(cs, d.running, k))
      && (a.outcome == PoolFull <==> there && AllStopped(cs, d.running) && d.count >= lim.total && d.countAfter >= lim.total)
      && (a.outcome == UserFull <==>
            && there && AllStopped(cs, d.running) && (d.count >= lim.total ==> d.countAfter < lim.total)
            && |Remaining(s, lim, user, d, now)| >= lim.perUser)
      && (a.outcome.Created? ==>
            && d.started == Some(a.outcome.cid) && AllStopped(cs, d.running)
            && ListOf(a.state, user) == Remaining(s, lim, user, d, now) + [a.outcome.cid])
      && (a.outcome == StartFailed ==> d.started == None)
  {
    FirstRunningIs(ListOf(s, user), d.running);
    forall k | FirstAt(ListOf(s, user), d.running, k)
      ensures FirstRunning(ListOf(s, user), d.running) == Hit(ListOf(s, user)[k])
    {
      FirstIsHit(ListOf(s, user), d.running, k);
    }
    RemainingIs(s, lim, user, d, now);
    if AllStopped(ListOf(s, user), d.running) { NotGone(ListOf(s, user), d.running); }
    hide Remaining, Cutoff, Cleaned;
  }

  lemma RemainingIs(s: State, lim: Limits, user: User, d: Docker, now: int)
    ensures var s1 := s.(connected := true);
      var s2 := if d.count >= lim.total then Cleaned(s1, Cutoff(0, lim, now)) else s1;
      s2.connected && ListOf(s2, user) == Remaining(s, lim, user, d, now)
  {
    assert Idle(s.activity, Cutoff(0, lim, now)) == Unused(s, lim, now);
  }

  lemma {:induction false} FirstIsHit(cs: seq<Cid>, running: map<Cid, bool>, k: int)
    requires FirstAt(cs, running, k)
    ensures FirstRunning(cs, running) == Hit(cs[k])
  {
    if k > 0 {
      assert cs[0] in running && !running[cs[0]];
      FirstIsHit(cs[1..], running, k - 1);
    }
  }

  /** A request that finds no running container cleans a full pool of what was not used in the last
      `idleTimeout` minutes, and forgets nothing otherwise. */
  lemma FullPoolIsCleaned(s: State, lim: Limits, user: User, d: Docker, now: int)
    requires (s.connected || d.reachable) && AllStopped(ListOf(s, user), d.running)
    ensures var a := GetOrCreate(s, lim, user, d, now);
      var kept := set c | c in s.activity && (d.count < lim.total || now - s.activity[c] <= 60 * lim.idleTimeout);
      && a.state.activity.Keys == (if a.outcome.Created? then kept + {a.outcome.cid} else kept)
      && (forall c :: c in kept && a.outcome != Created(c) ==> a.state.activity[c] == s.activity[c])
      && (a.outcome.Created? ==> a.state.activity[a.outcome.cid] == now)
  {
    FirstRunningIs(ListOf(s, user), d.running);
    NotGone(ListOf(s, user), d.running);
    var s1 := s.(connected := true);
    var s2 := if d.count >= lim.total then Cleaned(s1, Cutoff(0, lim, now)) else s1;
    assert s2.activity.Keys == set c | c in s.activity && (d.count < lim.total || now - s.activity[c] <= 60 * lim.idleTimeout);
    hide Cleaned, Without, FirstRunning;
  }

  lemma NotGone(cs: seq<Cid>, running: map<Cid, bool>)
    requires AllStopped(cs, running)
    ensures FirstRunning(cs, running) == Miss
  {
    FirstRunningIs(cs, running);
  }

  /** Running code connects the client and marks the container, if Docker knows it, and nothing else. */
  lemma ExecuteMarks(s: State, c: Cid, d: Docker, now: int)
    ensures var r := Execute(s, c, d, now);
      && r.users == s.users && r.connected == (s.connected || d.reachable)
      && (r.connected && c in d.running ==> r.activity == s.activity[c := now])
      && (!r.connected || c !in d.running ==> r.activity == s.activity)
  {
  }

  /** Containers that stopped still count: a user whose containers all exist and none of which runs is
      refused for as long as the list is full and the pool is not. */
  lemma StoppedContainersBlock(s: State, lim: Limits, user: User, d: Docker, now: int)
    requires d.count < lim.total && (s.connected || d.reachable)
    ensures GetOrCreate(s, lim, user, d, now).outcome == UserFull <==>
      |ListOf(s, user)| >= lim.perUser && forall c :: c in ListOf(s, user) ==> c in d.running && !d.running[c]
  {
    FirstRunningIs(ListOf(s, user), d.running);
  }

  /** The handler for a missing container raises exactly when the client is there and the first of the
      user's containers that does not just stand still is gone. */
  lemma HandlerRaisesIff(s: State, lim: Limits, user: User, d: Docker, now: int)
    ensures GetOrCreate(s, lim, user, d, now).outcome == HandlerRaised <==>
      (s.connected || d.reachable) && exists k :: MissingAt(ListOf(s, user), d.running, k)
  {
    var cs := ListOf(s, user);
    FirstRunningIs(cs, d.running);
    if k :| MissingAt(cs, d.running, k) {
      OneFirst(cs, d.running, k);
    }
  }

  lemma OneFirst(cs: seq<Cid>, running: map<Cid, bool>, k: int)
    requires MissingAt(cs, running, k)
    ensures forall i :: !FirstAt(cs, running, i)
    ensures exists c :: c in cs && c !in running
  {
    assert cs[k] in cs;
  }

  /** Such a request changes nothing but the client, so the same one raises again, for as long as
      Docker knows no more of these containers. */
  lemma HandlerRaisesAgain(s: State, lim: Limits, user: User, d: Docker, now: int, d2: Docker, later: int)
    requires GetOrCreate(s, lim, user, d, now).outcome == HandlerRaised && d2.running == d.running
    ensures var r := GetOrCreate(s, lim, user, d, now).state;
      && r == s.(connected := true)
      && GetOrCreate(r, lim, user, d2, later) == Answer(r, HandlerRaised)
  {
  }

  /** No request ever takes a missing container off its user's list: either the handler raises, or a
      running one comes first. Only a cleanup takes it off. */
  lemma MissingIsKept(s: State, lim: Limits, user: User, d: Docker, now: int, c: Cid)
    requires c in ListOf(s, user) && c !in d.running
    ensures c in ListOf(GetOrCreate(s, lim, user, d, now).state, user)
  {
    FirstRunningIs(ListOf(s, user), d.running);
  }

  /** A user whose only container is gone is refused by the handler, although there is room. */
  lemma OneMissingBlocks(lim: Limits, now: int)
    ensures var s := State(true, map[7 := [1]], map[1 := 0]);
      GetOrCreate(s, lim, 7, Docker(true, map[], 0, 0, Some(2)), now) == Answer(s, HandlerRaised)
  {
  }

  // ----- the program -----

  lemma {:induction false} MinusTwice(cs: seq<Cid>, a: set<Cid>, b: set<Cid>)
    ensures Minus(Minus(cs, a), b) == Minus(cs, a + b)
  {
    if cs != [] {
      var init, c := cs[..|cs| - 1], cs[|cs| - 1];
      MinusTwice(init, a, b);
      var m := Minus(init, a);
      if c in a { assert m + [] == m; } else { assert (m + [c])[..|m|] == m; }
    }
  }

  lemma {:induction false} MinusNothing(cs: seq<Cid>, gone: set<Cid>)
    requires forall c :: c in cs ==> c !in gone
    ensures Minus(cs, gone) == cs
  {
    if cs != [] { MinusNothing(cs[..|cs| - 1], gone); }
  }

  class SandboxManager {
    const limits: Limits
    var connected: bool
    var userContainers: map<User, seq<Cid>>
    var lastActivity: map<Cid, int>

    constructor (limits: Limits)
      ensures this.limits == limits && View() == START
    {
      this.limits := limits;
      connected, userContainers, lastActivity := false, map[], map[];
    }

    ghost function View(): State
      reads this
    {
      State(connected, userContainers, lastActivity)
    }

    /** `list.remove`: drops the first occurrence. */
    method Remove(cs: seq<Cid>, c: Cid) returns (r: seq<Cid>)
      requires NoDuplicates(cs) && c in cs
      ensures r == Minus(cs, {c})
    {
      var i := 0;
      while cs[i] != c
        invariant 0 <= i < |cs| && c in cs[i..]
        decreases |cs| - i
      {
        i := i + 1;
      }
      r := cs[..i] + cs[i + 1..];
      MinusOne(cs, i);
    }

    /** Takes the container off whichever list holds it. */
    method Unlist(c: Cid)
      requires forall u :: u in userContainers ==> NoDuplicates(userContainers[u])
      modifies this`userContainers
      ensures userContainers == Without(old(userContainers), {c})
    {
      ghost var was := userContainers;
      var left := userContainers.Keys;
      while |left| > 0
        invariant userContainers.Keys == was.Keys && left <= was.Keys
        invariant forall u :: u in was ==> userContainers[u] == if u in left then was[u] else Minus(was[u], {c})
        decreases left
      {
        var u :| u in left;
        if c in userContainers[u] {
          var rest := Remove(userContainers[u], c);
          userContainers := userContainers[u := rest];
        } else {
          MinusNothing(userContainers[u], {c});
        }
        left := left - {u};
      }
      assert userContainers == Without(was, {c});
    }

    /** Goes through a copy of the activity times. */
    method CleanupIdle(timeout: nat, now: int)
      requires Good(View(), limits)
      modifies this`userContainers, this`lastActivity
      ensures View() == Cleaned(old(View()), Cutoff(timeout, limits, now))
    {
      if !connected {
        return;
      }
      var cutoff := Cutoff(timeout, limits, now);
      var items := lastActivity;
      ghost var was, gone := userContainers, {};
      assert Without(was, {}) == was by { WithoutNothing(was); }
      var left := items.Keys;
      while |left| > 0
        invariant left <= items.Keys
        invariant gone == Idle(items, cutoff) - left
        invariant userContainers == Without(was, gone) && lastActivity == items - gone
        decreases left
      {
        var c :| c in left;
        if items[c] < cutoff {
          lastActivity := lastActivity - {c};
          WithoutKeeps(was, gone);
          Unlist(c);
          WithoutTwice(was, gone, {c});
          gone := gone + {c};
        }
        left := left - {c};
      }
      assert gone == Idle(items, cutoff);
    }

    method EnsureClient(d: Docker) returns (ok: bool)
      modifies this`connected
      ensures ok == (old(connected) || d.reachable)
      ensures connected == (old(connected) || d.reachable)
    {
      if !connected && d.reachable {
        connected := true;
      }
      ok := connected;
    }

    /** Tries the user's containers one after another. */
    method FindRunning(user: User, d: Docker) returns (look: Look)
      ensures look == FirstRunning(ListOf(View(), user), d.running)
    {
      var existing := if user in userContainers then userContainers[user] else [];
      var i := 0;
      while i < |existing|
        invariant 0 <= i <= |existing|
        invariant FirstRunning(existing, d.running) == FirstRunning(existing[i..], d.running)
      {
        assert existing[i..][1..] == existing[i + 1..];
        if existing[i] !in d.running {
          return Gone;
        }
        if d.running[existing[i]] {
          return Hit(existing[i]);
        }
        i := i + 1;
      }
      look := Miss;
    }

    method GetSandbox(user: User, d: Docker, now: int) returns (outcome: Outcome)
      requires Good(View(), limits)
      modifies this
      ensures Answer(View(), outcome) == GetOrCreate(old(View()), limits, user, d, now)
    {
      var ok := EnsureClient(d);
      if !ok {
        return NoDocker;
      }
      var look := FindRunning(user, d);
      if look.Gone? {
        return HandlerRaised;
      }
      if look.Hit? {
        lastActivity := lastActivity[look.cid := now];
        return Reused(look.cid);
      }
      if d.count >= limits.total {
        CleanupIdle(0, now);
        if d.countAfter >= limits.total {
          return PoolFull;
        }
      }
      var mine := if user in userContainers then userContainers[user] else [];
      if |mine| >= limits.perUser {
        return UserFull;
      }
      if d.started.None? {
        return StartFailed;
      }
      var c := d.started.value;
      userContainers := userContainers[user := mine + [c]];
      lastActivity := lastActivity[c := now];
      outcome := Created(c);
    }

    method ExecuteCode(c: Cid, d: Docker, now: int) returns (ok: bool)
      modifies this`connected, this`lastActivity
      ensures View() == Execute(old(View()), c, d, now)
      ensures ok == ((old(connected) || d.reachable) && c in d.running)
    {
      ok := EnsureClient(d);
      if ok {
        ok := c in d.running;
        if ok {
          lastActivity := lastActivity[c := now];
        }
      }
    }
  }

  lemma {:induction false} MinusOne(cs: seq<Cid>, i: nat)
    requires NoDuplicates(cs) && i < |cs|
    ensures Minus(cs, {cs[i]}) == cs[..i] + cs[i + 1..]
    decreases |cs|
  {
    var init := cs[..|cs| - 1];
    if i < |cs| - 1 {
      MinusOne(init, i);
      assert init[..i] == cs[..i] && init[i + 1..] + [cs[|cs| - 1]] == cs[i + 1..];
    } else {
      MinusNothing(init, {cs[i]});
    }
  }

  lemma WithoutNothing(users: map<User, seq<Cid>>)
    ensures Without(users, {}) == users
  {
    forall u | u in users ensures Minus(users[u], {}) == users[u] { MinusNothing(users[u], {}); }
  }

  lemma WithoutTwice(users: map<User, seq<Cid>>, a: set<Cid>, b: set<Cid>)
    ensures Without(Without(users, a), b) == Without(users, a + b)
  {
    forall u | u in users ensures Minus(Minus(users[u], a), b) == Minus(users[u], a + b) { MinusTwice(users[u], a, b); }
  }

  lemma WithoutKeeps(users: map<User, seq<Cid>>, gone: set<Cid>)
    requires forall u :: u in users ==> NoDuplicates(users[u])
    ensures forall u :: u in users ==> NoDuplicates(Without(users, gone)[u])
  {
    forall u | u in users ensures NoDuplicates(Minus(users[u], gone)) { MinusIs(users[u], gone); }
  }
}
