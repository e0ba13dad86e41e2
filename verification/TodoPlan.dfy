/** The session task list of TodoWrite, the plan events it emits, and the plan the
    browser folds from them. The id of a step, an md5 digest of its content, is
    modelled by the content itself (an injective id). */
module TodoPlan {
  import opened Wrappers

  /** A truthy JSON value: a string, or anything else. */
  datatype Json = Text(text: string) | NonText(code: nat)

  datatype Status = Pending | InProgress | Completed

  datatype Todo = Todo(content: Json, status: Status, activeForm: Json, level: int)

  // ----- the tool's arguments, as decoded JSON -----

  datatype RawStatus = NoStatus | Known(status: Status) | Unknown
  datatype RawLevel = NoLevel | Number(n: int) | NotANumber
  datatype RawField = Falsy | Truthy(value: Json)
  datatype RawTodo =
    | NotAnObject
    | RawTodo(content: RawField, status: RawStatus, activeForm: RawField, level: RawLevel)
  datatype RawArgs = InvalidJson(error: string) | NotADict | NoList | Todos(items: seq<RawTodo>)

  /** How a tool call ends: normally, with an error result, or by an exception. */
  datatype Outcome = Done | Refused | Raised

  // ----- events and the client's plan -----

  datatype Step = Step(id: string, content: string, status: Status, level: int, activeForm: Json)

  datatype PlanEvent =
    | PlanCreated(steps: seq<Step>)
    | PlanAdjusted(steps: seq<Step>)
    | StepStart(index: nat, activeForm: Json)
    | StepComplete(index: nat)
    | PlanComplete

  datatype PlanStatus = Executing | AllDone

  datatype Plan = Plan(steps: seq<Step>, status: PlanStatus)

  // ----- the server: normalising the arguments -----

  predicate Kept(r: RawTodo) {
    r.RawTodo? && r.content.Truthy? && !r.status.NoStatus?
  }

  function Clamp(n: int): (r: int)
    ensures 1 <= r <= 3 && (1 <= n <= 3 ==> r == n)
  {
    if n > 3 then 3 else if n < 1 then 1 else n
  }

  function Normalized(r: RawTodo): Todo
    requires Kept(r)
  {
    Todo(r.content.value,
         if r.status.Known? then r.status.status else Pending,
         if r.activeForm.Truthy? then r.activeForm.value else r.content.value,
         if r.level.Number? then Clamp(r.level.n) else 1)
  }

  /** The new list, or None when some kept item's level cannot be read as a number. */
  function NormalizedList(items: seq<RawTodo>): Option<seq<Todo>> {
    if items == [] then Some([])
    else
      var r := items[|items| - 1];
      match NormalizedList(items[..|items| - 1])
      case None => None
      case Some(ts) =>
        if !Kept(r) then Some(ts)
        else if r.level.NotANumber? then None
        else Some(ts + [Normalized(r)])
  }

  /** `t` is what the item `r` is stored as. */
  predicate Stores(r: RawTodo, t: Todo) {
    && r.RawTodo? && r.content == Truthy(t.content)
    && match r.status {
         case NoStatus => false
         case Known(status) => t.status == status
         case Unknown => t.status == Pending
       }
    && t.activeForm == (if r.activeForm.Truthy? then r.activeForm.value else t.content)
    && match r.level {
         case NoLevel => t.level == 1
         case Number(n) => 1 <= t.level <= 3 && (n <= 1 ==> t.level == 1) && (n >= 3 ==> t.level == 3) && (n == 2 ==> t.level == 2)
         case NotANumber => false
       }
  }

  /** The item has no content or no status, and is left out. */
  predicate LeftOut(r: RawTodo) {
    r.NotAnObject? || r.content.Falsy? || r.status.NoStatus?
  }

  /** The item would be stored but for its level. */
  predicate Unreadable(r: RawTodo) {
    r.RawTodo? && r.content.Truthy? && !r.status.NoStatus? && r.level.NotANumber?
  }

  /** The list `ts` is that of the items at the places `at`, in order, and all others are left out. */
  ghost predicate StoredFrom(items: seq<RawTodo>, ts: seq<Todo>, at: seq<nat>) {
    && |at| == |ts|
    && (forall k :: 0 <= k < |at| ==> at[k] < |items| && Stores(items[at[k]], ts[k]))
    && (forall k, l :: 0 <= k < l < |at| ==> at[k] < at[l])
    && (forall i :: 0 <= i < |items| && i !in at ==> LeftOut(items[i]))
  }

  /** The list is stored unless one of the items taken has no readable level, and it is the items that
      have a content and a status, in order, each with what it was given. */
  lemma {:induction false} ListIsStored(items: seq<RawTodo>)
    ensures NormalizedList(items).Some? <==> forall i :: 0 <= i < |items| ==> !Unreadable(items[i])
    ensures NormalizedList(items).Some? ==> exists at :: StoredFrom(items, NormalizedList(items).value, at)
  {
    hide NormalizedList, StoredFrom, Unreadable;
    if items == [] {
      NothingStored();
    } else {
      var init, r := items[..|items| - 1], items[|items| - 1];
      ListIsStored(init);
      ListSnoc(init, r);
      assert items == init + [r];
      assert (forall i :: 0 <= i < |items| ==> !Unreadable(items[i]))
        <==> (forall i :: 0 <= i < |init| ==> !Unreadable(init[i])) && !Unreadable(r);
      if NormalizedList(items).Some? {
        var at: seq<nat> :| StoredFrom(init, NormalizedList(init).value, at);
        OneMore(init, NormalizedList(init).value, at, r);
      }
    }
  }

  lemma NothingStored()
    ensures NormalizedList([]) == Some([]) && StoredFrom([], [], [])
  {
  }

  lemma ListSnoc(items: seq<RawTodo>, r: RawTodo)
    ensures NormalizedList(items + [r]).Some? <==> NormalizedList(items).Some? && !Unreadable(r)
    ensures NormalizedList(items + [r]).Some? ==>
      NormalizedList(items + [r]).value == NormalizedList(items).value + if Kept(r) then [Normalized(r)] else []
  {
    assert (items + [r])[..|items|] == items;
  }

  lemma OneMore(items: seq<RawTodo>, ts: seq<Todo>, at: seq<nat>, r: RawTodo)
    requires StoredFrom(items, ts, at) && !Unreadable(r)
    ensures StoredFrom(items + [r], ts + if Kept(r) then [Normalized(r)] else [], if Kept(r) then at + [|items|] else at)
  {
    hide StoredFrom;
    if Kept(r) {
      StoredNext(items, ts, at, r, Normalized(r));
    } else {
      assert ts + [] == ts;
      NotStored(items, ts, at, r);
    }
  }

  lemma StoredNext(init: seq<RawTodo>, ts: seq<Todo>, at: seq<nat>, r: RawTodo, t: Todo)
    requires StoredFrom(init, ts, at) && Stores(r, t)
    ensures StoredFrom(init + [r], ts + [t], at + [|init|])
  {
    hide Stores, LeftOut;
    var all := at + [|init|];
    assert all[|at|] == |init| && forall i :: i in at ==> i in all;
  }

  lemma NotStored(init: seq<RawTodo>, ts: seq<Todo>, at: seq<nat>, r: RawTodo)
    requires StoredFrom(init, ts, at) && LeftOut(r)
    ensures StoredFrom(init + [r], ts, at)
  {
    hide Stores, LeftOut;
  }

  // ----- the server: what one change of the list emits -----

  predicate AllText(todos: seq<Todo>) {
    forall i :: 0 <= i < |todos| ==> todos[i].content.Text?
  }

  predicate AllCompleted(todos: seq<Todo>) {
    forall i :: 0 <= i < |todos| ==> todos[i].status.Completed?
  }

  function StepOf(t: Todo): Step
    requires t.content.Text?
  {
    Step(t.content.text, t.content.text, t.status, t.level, t.activeForm)
  }

  function StepsOf(todos: seq<Todo>): seq<Step>
    requires AllText(todos)
  {
    seq(|todos|, i requires 0 <= i < |todos| => StepOf(todos[i]))
  }

  /** Status of the last old item with this content, `pending` if there is none. */
  function OldStatus(old_: seq<Todo>, content: Json): Status {
    if old_ == [] then Pending
    else if old_[|old_| - 1].content == content then old_[|old_| - 1].status
    else OldStatus(old_[..|old_| - 1], content)
  }

  /** Step events of the first `n` new items. */
  function StepEvents(old_: seq<Todo>, new_: seq<Todo>, n: nat): seq<PlanEvent>
    requires n <= |new_|
  {
    if n == 0 then [] else
      var t := new_[n - 1];
      var was := OldStatus(old_, t.content);
      StepEvents(old_, new_, n - 1)
      + if t.status.InProgress? && !was.InProgress? then [StepStart(n - 1, t.activeForm)]
        else if t.status.Completed? && !was.Completed? then [StepComplete(n - 1)]
        else []
  }

  function Snapshot(old_: seq<Todo>, new_: seq<Todo>): PlanEvent
    requires AllText(new_)
  {
    if old_ == [] then PlanCreated(StepsOf(new_)) else PlanAdjusted(StepsOf(new_))
  }

  /** Everything emitted for a change from `old_` to `new_`: nothing at all when a content is
      not a string, because the id of that item cannot be computed. */
  function Emitted(old_: seq<Todo>, new_: seq<Todo>): seq<PlanEvent> {
    if !AllText(old_) || !AllText(new_) then []
    else
      [Snapshot(old_, new_)] + StepEvents(old_, new_, |new_|)
      + if new_ != [] && AllCompleted(new_) then [PlanComplete] else []
  }

  // ----- the server: the two operations -----

  datatype Op = TodoWrite(args: RawArgs) | ForceComplete

  datatype Reply = Reply(todos: seq<Todo>, events: seq<PlanEvent>, outcome: Outcome)

  function Finished(todos: seq<Todo>): (r: seq<Todo>)
    ensures |r| == |todos| && AllCompleted(r)
    ensures forall i :: 0 <= i < |r| ==> r[i] == todos[i].(status := Completed)
  {
    seq(|todos|, i requires 0 <= i < |todos| => todos[i].(status := Completed))
  }

  function Write(todos: seq<Todo>, args: RawArgs): Reply {
    match args
    case InvalidJson(_) => Reply(todos, [], Refused)
    case NotADict => Reply(todos, [], Raised)
    case NoList => Reply(todos, [], Refused)
    case Todos(items) =>
      match NormalizedList(items)
      case None => Reply(todos, [], Raised)
      case Some(ts) => Reply(ts, Emitted(todos, ts), Done)
  }

  function Complete(todos: seq<Todo>): Reply {
    if todos == [] || AllCompleted(todos) then Reply(todos, [], Done)
    else Reply(Finished(todos), Emitted(todos, Finished(todos)), if AllText(todos) then Done else Raised)
  }

  function Apply(todos: seq<Todo>, op: Op): Reply {
    match op
    case TodoWrite(args) => Write(todos, args)
    case ForceComplete => Complete(todos)
  }

  /** The list and everything emitted after a run of operations. */
  function Run(todos: seq<Todo>, ops: seq<Op>): Reply {
    if ops == [] then Reply(todos, [], Done)
    else
      var before := Run(todos, ops[..|ops| - 1]);
      var r := Apply(before.todos, ops[|ops| - 1]);
      r.(events := before.events + r.events)
  }

  // ----- the client -----

  function Handle(plan: Option<Plan>, e: PlanEvent): Option<Plan> {
    match e
    case PlanCreated(steps) => Some(Plan(steps, Executing))
    case PlanAdjusted(steps) => Some(Plan(steps, Executing))
    case StepStart(i, _) => SetStep(plan, i, InProgress)
    case StepComplete(i) => SetStep(plan, i, Completed)
    case PlanComplete => if plan.None? then None else Some(plan.value.(status := AllDone))
  }

  function SetStep(plan: Option<Plan>, index: nat, status: Status): Option<Plan> {
    if plan.None? then None
    else
      var s := plan.value.steps;
      Some(plan.value.(steps := seq(|s|, i requires 0 <= i < |s| => if i == index then s[i].(status := status) else s[i])))
  }

  function Fold(plan: Option<Plan>, log: seq<PlanEvent>): Option<Plan> {
    if log == [] then plan else Handle(Fold(plan, log[..|log| - 1]), log[|log| - 1])
  }

  /** The plan that mirrors a list. */
  function PlanOf(todos: seq<Todo>): Plan
    requires AllText(todos)
  {
    Plan(StepsOf(todos), if todos != [] && AllCompleted(todos) then AllDone else Executing)
  }

  predicate IsSnapshot(e: PlanEvent) { e.PlanCreated? || e.PlanAdjusted? }

  predicate HasSnapshot(log: seq<PlanEvent>) {
    exists i :: 0 <= i < |log| && IsSnapshot(log[i])
  }

  // ----- what is emitted -----

  /** The last old item with this content had status `s`. */
  ghost predicate LastHad(old_: seq<Todo>, content: Json, s: Status) {
    exists j :: 0 <= j < |old_| && old_[j].content == content && old_[j].status == s
             && forall k :: j < k < |old_| ==> old_[k].content != content
  }

  lemma {:induction false} OldStatusIs(old_: seq<Todo>, content: Json)
    ensures forall s :: s != Pending ==> (OldStatus(old_, content) == s <==> LastHad(old_, content, s))
    ensures OldStatus(old_, content).Pending? ==> LastHad(old_, content, Pending) || forall j :: 0 <= j < |old_| ==> old_[j].content != content
  {
    if old_ != [] {
      var init, last := old_[..|old_| - 1], old_[|old_| - 1];
      assert old_ == init + [last];
      if last.content == content {
        assert old_[|old_| - 1].content == content;
        assert LastHad(old_, content, last.status);
      } else {
        OldStatusIs(init, content);
        forall s ensures LastHad(old_, content, s) <==> LastHad(init, content, s) {
          LastHadInit(init, last, content, s);
        }
      }
    }
  }

  lemma LastHadInit(init: seq<Todo>, last: Todo, content: Json, s: Status)
    requires last.content != content
    ensures LastHad(init + [last], content, s) <==> LastHad(init, content, s)
  {
    var all := init + [last];
    if LastHad(init, content, s) {
      var j :| 0 <= j < |init| && init[j].content == content && init[j].status == s
            && forall k :: j < k < |init| ==> init[k].content != content;
      assert all[j] == init[j];
    }
    if LastHad(all, content, s) {
      var j :| 0 <= j < |all| && all[j].content == content && all[j].status == s
            && forall k :: j < k < |all| ==> all[k].content != content;
      assert init[j] == all[j] && forall k :: j < k < |init| ==> init[k] == all[k];
    }
  }

  /** `e` reports item `i`: it has just been started or completed. */
  ghost predicate Reports(old_: seq<Todo>, new_: seq<Todo>, e: PlanEvent, i: nat) {
    && i < |new_|
    && match e
       case StepStart(k, form) =>
         && k == i && form == new_[i].activeForm
         && new_[i].status.InProgress? && !LastHad(old_, new_[i].content, InProgress)
       case StepComplete(k) =>
         k == i && new_[i].status.Completed? && !LastHad(old_, new_[i].content, Completed)
       case _ => false
  }

  ghost predicate NothingReports(old_: seq<Todo>, new_: seq<Todo>, i: nat) {
    forall e :: !Reports(old_, new_, e, i)
  }

  /** `es` reports exactly the first `n` items that were started or completed, in order; `at` says which. */
  ghost predicate ReportsAll(old_: seq<Todo>, new_: seq<Todo>, es: seq<PlanEvent>, at: seq<nat>, n: nat) {
    && |at| == |es|
    && (forall k :: 0 <= k < |es| ==> at[k] < n && Reports(old_, new_, es[k], at[k]))
    && (forall k, l :: 0 <= k < l < |at| ==> at[k] < at[l])
    && (forall i, e :: 0 <= i < n && Reports(old_, new_, e, i) ==> i in at)
  }

  ghost predicate ReportsExactly(old_: seq<Todo>, new_: seq<Todo>, es: seq<PlanEvent>, n: nat) {
    exists at :: ReportsAll(old_, new_, es, at, n)
  }

  lemma {:induction false} StepEventsReport(old_: seq<Todo>, new_: seq<Todo>, n: nat)
    requires n <= |new_|
    ensures ReportsExactly(old_, new_, StepEvents(old_, new_, n), n)
  {
    if n == 0 {
      assert ReportsAll(old_, new_, StepEvents(old_, new_, 0), [], 0);
    } else {
      StepEventsReport(old_, new_, n - 1);
      var before, all := StepEvents(old_, new_, n - 1), StepEvents(old_, new_, n);
      var at :| ReportsAll(old_, new_, before, at, n - 1);
      OldStatusIs(old_, new_[n - 1].content);
      if all == before {
        ReportsNone(old_, new_, before, at, n);
      } else {
        ReportsOne(old_, new_, before, at, n, all[|before|]);
      }
    }
  }

  lemma ReportsNone(old_: seq<Todo>, new_: seq<Todo>, es: seq<PlanEvent>, at: seq<nat>, n: nat)
    requires 0 < n <= |new_| && ReportsAll(old_, new_, es, at, n - 1)
    requires NothingReports(old_, new_, n - 1)
    ensures ReportsAll(old_, new_, es, at, n)
  {
    hide Reports;
  }

  lemma ReportsOne(old_: seq<Todo>, new_: seq<Todo>, es: seq<PlanEvent>, at: seq<nat>, n: nat, e: PlanEvent)
    requires 0 < n <= |new_| && ReportsAll(old_, new_, es, at, n - 1) && Reports(old_, new_, e, n - 1)
    ensures ReportsAll(old_, new_, es + [e], at + [n - 1], n)
  {
    hide Reports;
    assert (at + [n - 1])[|at|] == n - 1 && forall i :: i in at ==> i in at + [n - 1];
  }

  /** The step shows all of the item. */
  predicate Shows(s: Step, t: Todo) {
    && t.content == Text(s.content) && s.id == s.content && s.status == t.status
    && s.level == t.level && s.activeForm == t.activeForm
  }

  /** A change of a list of strings is announced by the whole list, as a new plan if there was none;
      then come the items just started and completed, each once and in order; and last, when all of
      a non-empty list is done, that the plan is complete. */
  ghost predicate Announces(old_: seq<Todo>, new_: seq<Todo>, es: seq<PlanEvent>) {
    var done := new_ != [] && forall i :: 0 <= i < |new_| ==> new_[i].status == Completed;
    && es != []
    && (if old_ == [] then es[0].PlanCreated? else es[0].PlanAdjusted?)
    && |es[0].steps| == |new_| && (forall i :: 0 <= i < |new_| ==> Shows(es[0].steps[i], new_[i]))
    && (done ==> |es| > 1 && es[|es| - 1] == PlanComplete)
    && ReportsExactly(old_, new_, es[1..if done then |es| - 1 else |es|], |new_|)
  }

  lemma EmittedIs(old_: seq<Todo>, new_: seq<Todo>)
    ensures if AllText(old_) && AllText(new_) then Announces(old_, new_, Emitted(old_, new_)) else Emitted(old_, new_) == []
  {
    if !AllText(old_) || !AllText(new_) {
      return;
    }
    StepEventsReport(old_, new_, |new_|);
    SnapshotShows(old_, new_);
    var steps := StepEvents(old_, new_, |new_|);
    var last := if new_ != [] && AllCompleted(new_) then [PlanComplete] else [];
    Between(Snapshot(old_, new_), steps, last);
    hide ReportsExactly, StepEvents, Snapshot, Shows, AllText;
    assert Emitted(old_, new_) == [Snapshot(old_, new_)] + steps + last;
  }

  lemma SnapshotShows(old_: seq<Todo>, new_: seq<Todo>)
    requires AllText(new_)
    ensures var e := Snapshot(old_, new_);
      && (if old_ == [] then e.PlanCreated? else e.PlanAdjusted?)
      && |e.steps| == |new_| && forall i :: 0 <= i < |new_| ==> Shows(e.steps[i], new_[i])
  {
  }

  lemma Between(e: PlanEvent, es: seq<PlanEvent>, last: seq<PlanEvent>)
    ensures var all := [e] + es + last;
      all[0] == e && all[1..|all| - |last|] == es && (|last| == 1 ==> |all| > 1 && all[|all| - 1] == last[0])
  {
  }

  /** What the browser does with one event: a snapshot replaces the plan, a step event changes the
      status of its step alone, and the last one marks the plan as done. */
  lemma HandleIs(plan: Plan, e: PlanEvent)
    ensures Handle(Some(plan), e).Some?
    ensures var r := Handle(Some(plan), e).value;
      match e
      case PlanCreated(steps) => r == Plan(steps, Executing) == Handle(None, e).value
      case PlanAdjusted(steps) => r == Plan(steps, Executing) == Handle(None, e).value
      case StepStart(i, _) =>
        && r.status == plan.status && |r.steps| == |plan.steps| && Handle(None, e).None?
        && forall k :: 0 <= k < |r.steps| ==> r.steps[k] == if k == i then plan.steps[k].(status := InProgress) else plan.steps[k]
      case StepComplete(i) =>
        && r.status == plan.status && |r.steps| == |plan.steps| && Handle(None, e).None?
        && forall k :: 0 <= k < |r.steps| ==> r.steps[k] == if k == i then plan.steps[k].(status := Completed) else plan.steps[k]
      case PlanComplete => r == Plan(plan.steps, AllDone) && Handle(None, e).None?
  {
  }

  // ----- theorems -----

  lemma {:induction false} FoldConcat(plan: Option<Plan>, a: seq<PlanEvent>, b: seq<PlanEvent>)
    ensures Fold(plan, a + b) == Fold(Fold(plan, a), b)
  {
    if b == [] {
      assert a + b == a;
    } else {
      assert (a + b)[..|a + b| - 1] == a + b[..|b| - 1];
      FoldConcat(plan, a, b[..|b| - 1]);
    }
  }

  lemma SetStepAgain(todos: seq<Todo>, i: nat)
    requires i < |todos| && AllText(todos)
    ensures var p := Some(Plan(StepsOf(todos), Executing)); SetStep(p, i, todos[i].status) == p
  {
    var p := Some(Plan(StepsOf(todos), Executing));
    assert SetStep(p, i, todos[i].status).value.steps == StepsOf(todos);
  }

  /** The step events repeat what the snapshot already said. */
  lemma {:induction false} StepEventsChangeNothing(old_: seq<Todo>, new_: seq<Todo>, n: nat)
    requires n <= |new_| && AllText(new_)
    ensures var p := Some(Plan(StepsOf(new_), Executing)); Fold(p, StepEvents(old_, new_, n)) == p
  {
    if n > 0 {
      var p := Some(Plan(StepsOf(new_), Executing));
      StepEventsChangeNothing(old_, new_, n - 1);
      var before, all := StepEvents(old_, new_, n - 1), StepEvents(old_, new_, n);
      var t := new_[n - 1];
      SetStepAgain(new_, n - 1);
      hide SetStep, StepsOf, OldStatus, AllText;
      assert before + [] == before;
      if all != before {
        var e := if t.status.InProgress? then StepStart(n - 1, t.activeForm) else StepComplete(n - 1);
        assert all == before + [e];
        assert all[..|all| - 1] == before;
        assert Handle(p, e) == SetStep(p, n - 1, t.status);
      }
    }
  }

  /** One change of the list brings the client to the new list's plan, whatever it showed before. */
  lemma EmittedMirrors(plan: Option<Plan>, old_: seq<Todo>, new_: seq<Todo>)
    requires AllText(old_) && AllText(new_)
    ensures Fold(plan, Emitted(old_, new_)) == Some(PlanOf(new_))
  {
    var snap, steps := [Snapshot(old_, new_)], StepEvents(old_, new_, |new_|);
    assert snap[..0] == [];
    assert Fold(plan, snap) == Some(Plan(StepsOf(new_), Executing));
    FoldConcat(plan, snap, steps);
    StepEventsChangeNothing(old_, new_, |new_|);
    if new_ != [] && AllCompleted(new_) {
      FoldConcat(plan, snap + steps, [PlanComplete]);
      assert [PlanComplete][..0] == [];
    } else {
      assert snap + steps + [] == snap + steps;
    }
  }

  /** A change is mirrored exactly when it is emitted, that is when every content in the old
      and in the new list is a string, unless the client already showed that plan. */
  lemma MirroredIff(plan: Option<Plan>, old_: seq<Todo>, new_: seq<Todo>)
    requires AllText(new_)
    ensures Fold(plan, Emitted(old_, new_)) == Some(PlanOf(new_)) <==> AllText(old_) || plan == Some(PlanOf(new_))
  {
    if AllText(old_) { EmittedMirrors(plan, old_, new_); }
  }

  predicate TextOnly(op: Op) {
    op.TodoWrite? && op.args.Todos? ==>
      var r := NormalizedList(op.args.items);
      r.Some? ==> AllText(r.value)
  }

  /** What the client has been shown fits the server's list: nothing yet and no list, or a
      log that folds to the list's plan from anywhere. */
  ghost predicate Mirrored(todos: seq<Todo>, log: seq<PlanEvent>) {
    && AllText(todos)
    && (HasSnapshot(log) || (todos == [] && log == []))
    && (HasSnapshot(log) ==> forall plan :: Fold(plan, log) == Some(PlanOf(todos)))
  }

  /** After any run of TodoWrite and force-complete calls whose contents are strings, folding the
      emitted events from any plan gives the plan of the server's list: same steps,
      and marked completed exactly when the list is non-empty and all done. */
  lemma {:induction false} RunMirrors(ops: seq<Op>)
    requires forall i :: 0 <= i < |ops| ==> TextOnly(ops[i])
    ensures var r := Run([], ops); Mirrored(r.todos, r.events)
  {
    if ops != [] {
      var init, op := ops[..|ops| - 1], ops[|ops| - 1];
      RunMirrors(init);
      var before := Run([], init);
      var r := Apply(before.todos, op);
      if r.events == [] {
        assert before.events + r.events == before.events;
      } else {
        assert r.events == Emitted(before.todos, r.todos);
        var log := before.events + r.events;
        assert IsSnapshot(log[|before.events|]);
        forall plan ensures Fold(plan, log) == Some(PlanOf(r.todos)) {
          FoldConcat(plan, before.events, r.events);
          EmittedMirrors(Fold(plan, before.events), before.todos, r.todos);
        }
      }
    }
  }

  lemma RunSnoc(ops: seq<Op>, op: Op)
    ensures var before, after := Run([], ops), Run([], ops + [op]);
      var r := Apply(before.todos, op);
      after == r.(events := before.events + r.events)
  {
  }

  /** What came before a snapshot does not matter: any part of the log that still holds its
      last snapshot folds to the same plan, from any plan the client had. */
  lemma SuffixMirrors(log: seq<PlanEvent>, cut: nat, p: Option<Plan>, q: Option<Plan>)
    requires cut <= |log| && HasSnapshot(log[cut..])
    ensures Fold(q, log[cut..]) == Fold(p, log)
  {
    assert log == log[..cut] + log[cut..];
    FoldConcat(p, log[..cut], log[cut..]);
    FoldForgets(Fold(p, log[..cut]), q, log[cut..]);
  }

  lemma {:induction false} FoldForgets(p: Option<Plan>, q: Option<Plan>, log: seq<PlanEvent>)
    requires HasSnapshot(log)
    ensures Fold(p, log) == Fold(q, log)
  {
    var last := |log| - 1;
    if !IsSnapshot(log[last]) {
      var i :| 0 <= i < |log| && IsSnapshot(log[i]);
      assert IsSnapshot(log[..last][i]);
      FoldForgets(p, q, log[..last]);
    }
  }

  /** A content that is not a string is stored but not shown, and it also silences the next
      write, even one made of strings only. */
  lemma NonTextGoesUnseen(items: seq<RawTodo>, next: seq<RawTodo>)
    requires NormalizedList(items).Some? && !AllText(NormalizedList(items).value)
    requires NormalizedList(next).Some?
    ensures var r := Run([], [TodoWrite(Todos(items)), TodoWrite(Todos(next))]);
      r.todos == NormalizedList(next).value && r.events == [] && r.outcome == Done
  {
    var ops := [TodoWrite(Todos(items)), TodoWrite(Todos(next))];
    assert ops[..1] == [ops[0]] && [ops[0]][..0] == [];
    assert Run([], []) == Reply([], [], Done);
    assert Run([], [ops[0]]).todos == NormalizedList(items).value;
  }

  /** After a force-complete every item is done and otherwise as it was, even when it raises. */
  lemma ForceCompletes(todos: seq<Todo>)
    ensures AllCompleted(Apply(todos, ForceComplete).todos)
    ensures |Apply(todos, ForceComplete).todos| == |todos|
    ensures forall i :: 0 <= i < |todos| ==> Apply(todos, ForceComplete).todos[i] == todos[i].(status := Completed)
    ensures Apply(todos, ForceComplete).outcome == Raised <==> !AllCompleted(todos) && !AllText(todos)
  {
  }

  // ----- the program -----

  /** One session's entry of the task store and the events pushed for it. */
  class TodoBoard {
    var todos: seq<Todo>
    var events: seq<PlanEvent>
    ghost var ops: seq<Op>

    /** The list and the events are what the operations so far make of them. */
    ghost predicate Valid()
      reads this
    {
      var r := Run([], ops);
      todos == r.todos && events == r.events
    }

    constructor ()
      ensures Valid() && ops == []
    {
      todos, events, ops := [], [], [];
    }

    /** Emits the plan events of a change; raises when an id cannot be computed. */
    method DiffAndEmit(old_: seq<Todo>, new_: seq<Todo>) returns (ok: bool)
      modifies this`events
      ensures ok == (AllText(old_) && AllText(new_))
      ensures events == old(events) + Emitted(old_, new_)
    {
      if !AllText(old_) || !AllText(new_) {
        return false;
      }
      ghost var start := events;
      events := events + [if old_ == [] then PlanCreated(StepsOf(new_)) else PlanAdjusted(StepsOf(new_))];
      var i := 0;
      while i < |new_|
        invariant 0 <= i <= |new_|
        invariant events == start + ([Snapshot(old_, new_)] + StepEvents(old_, new_, i))
      {
        var t := new_[i];
        var was := OldStatus(old_, t.content);
        if t.status.InProgress? && !was.InProgress? {
          events := events + [StepStart(i, t.activeForm)];
        } else if t.status.Completed? && !was.Completed? {
          events := events + [StepComplete(i)];
        }
        i := i + 1;
      }
      if new_ != [] && AllCompleted(new_) {
        events := events + [PlanComplete];
      }
      ok := true;
    }

    method Normalize(items: seq<RawTodo>) returns (r: Option<seq<Todo>>)
      ensures r == NormalizedList(items)
    {
      var ts: seq<Todo> := [];
      var i := 0;
      assert items[..0] == [];
      while i < |items|
        invariant 0 <= i <= |items| && NormalizedList(items[..i]) == Some(ts)
      {
        assert items[..i + 1][..i] == items[..i];
        if Kept(items[i]) {
          if items[i].level.NotANumber? {
            NormalizeFails(items, i + 1);
            return None;
          }
          ts := ts + [Normalized(items[i])];
        }
        i := i + 1;
      }
      assert items[..i] == items;
      r := Some(ts);
    }

    method ExecuteWithSession(args: RawArgs) returns (outcome: Outcome)
      modifies this
      ensures ops == old(ops) + [TodoWrite(args)] && (old(Valid()) ==> Valid())
      ensures var r := Write(old(todos), args);
        todos == r.todos && events == old(events) + r.events && outcome == r.outcome
      ensures outcome == Refused <==> args.InvalidJson? || args.NoList?
      ensures outcome == Done <==> args.Todos? && forall i :: 0 <= i < |args.items| ==> !Unreadable(args.items[i])
      ensures if outcome == Done
        then exists at :: StoredFrom(args.items, todos, at)
        else todos == old(todos)
      ensures if outcome == Done && AllText(old(todos)) && AllText(todos)
        then old(events) <= events && Announces(old(todos), todos, events[|old(events)|..])
        else events == old(events)
    {
      hide Announces;
      RunSnoc(ops, TodoWrite(args));
      ops := ops + [TodoWrite(args)];
      match args
      case InvalidJson(_) => outcome := Refused;
      case NotADict => outcome := Raised;
      case NoList => outcome := Refused;
      case Todos(items) =>
        ListIsStored(items);
        var list := Normalize(items);
        if list.None? {
          return Raised;
        }
        var oldTodos := todos;
        todos := list.value;
        EmittedIs(oldTodos, todos);
        var emitted := DiffAndEmit(oldTodos, todos);  // an exception here is only logged
        outcome := Done;
    }

    method ForceCompleteTodos() returns (outcome: Outcome)
      modifies this
      ensures ops == old(ops) + [ForceComplete] && (old(Valid()) ==> Valid())
      ensures var r := Complete(old(todos));
        todos == r.todos && events == old(events) + r.events && outcome == r.outcome
      ensures |todos| == |old(todos)| && forall i :: 0 <= i < |todos| ==> todos[i] == old(todos)[i].(status := Completed)
      ensures if !AllCompleted(old(todos)) && AllText(old(todos))
        then old(events) <= events && Announces(old(todos), todos, events[|old(events)|..])
        else events == old(events)
    {
      hide Announces;
      RunSnoc(ops, ForceComplete);
      ops := ops + [ForceComplete];
      if todos == [] || AllCompleted(todos) {
        return Done;
      }
      var before := todos;
      todos := Finished(todos);
      EmittedIs(before, todos);
      var emitted := DiffAndEmit(before, todos);
      outcome := if emitted then Done else Raised;
    }
  }

  lemma {:induction false} NormalizeFails(items: seq<RawTodo>, n: nat)
    requires n <= |items| && NormalizedList(items[..n]).None?
    ensures NormalizedList(items).None?
    decreases |items| - n
  {
    if n == |items| {
      assert items[..n] == items;
    } else {
      assert items[..n + 1][..n] == items[..n];
      NormalizeFails(items, n + 1);
    }
  }
}
