/** A user's memories: facts distilled into short-term rows, stored rows, and their
    consolidation into long-term memory. Importances are exact reals. */
module MemoryTable {
  import opened Wrappers

  datatype Kind = ShortTerm | LongTerm

  datatype Source = Agent | Distillation | Consolidation

  datatype Row = Row(key: string, value: string, importance: real, kind: Kind, source: Source, deleted: bool)

  /** A fact as the model reported it; the importance may be anything. */
  datatype Fact = Fact(key: string, value: string, importance: real)

  // ----- distillation -----

  /** `max(0.0, min(1.0, x))` */
  function Clamp(x: real): (r: real)
    ensures 0.0 <= r <= 1.0
  {
    if x > 1.0 then 1.0 else if x < 0.0 then 0.0 else x
  }

  /** Parsed facts are clamped, and those below 0.5 dropped. */
  function Filtered(raw: seq<Fact>): (fs: seq<Fact>)
    ensures forall i :: 0 <= i < |fs| ==> 0.5 <= fs[i].importance <= 1.0
  {
    if raw == [] then [] else
      var f := raw[|raw| - 1];
      Filtered(raw[..|raw| - 1]) + if Clamp(f.importance) >= 0.5 then [f.(importance := Clamp(f.importance))] else []
  }

  /** `fs` are the facts of `raw` at the places `at`, in order, with an importance over 1 taken as 1; all others
      are below 0.5. */
  ghost predicate KeptFrom(raw: seq<Fact>, fs: seq<Fact>, at: seq<nat>) {
    && |at| == |fs|
    && (forall k :: 0 <= k < |at| ==>
          && at[k] < |raw| && raw[at[k]].importance >= 0.5
          && fs[k] == raw[at[k]].(importance := if raw[at[k]].importance > 1.0 then 1.0 else raw[at[k]].importance))
    && (forall k, l :: 0 <= k < l < |at| ==> at[k] < at[l])
    && (forall i :: 0 <= i < |raw| && i !in at ==> raw[i].importance < 0.5)
  }

  /** Every fact of at least 0.5 is kept, in order, and no other. */
  lemma {:induction false} FilteredIs(raw: seq<Fact>)
    ensures exists at :: KeptFrom(raw, Filtered(raw), at)
  {
    hide Filtered, KeptFrom;
    if raw == [] {
      NoneKept();
    } else {
      var init, f := raw[..|raw| - 1], raw[|raw| - 1];
      FilteredIs(init);
      var at: seq<nat> :| KeptFrom(init, Filtered(init), at);
      FilteredSnoc(init, f);
      KeptNext(init, Filtered(init), at, f);
      assert raw == init + [f];
      assert KeptFrom(raw, Filtered(raw), if f.importance >= 0.5 then at + [|init|] else at);
    }
  }

  lemma FilteredSnoc(raw: seq<Fact>, f: Fact)
    ensures Filtered(raw + [f]) == if f.importance < 0.5 then Filtered(raw)
      else Filtered(raw) + [f.(importance := if f.importance > 1.0 then 1.0 else f.importance)]
  {
    assert (raw + [f])[..|raw|] == raw;
  }

  lemma NoneKept()
    ensures KeptFrom([], Filtered([]), [])
  {
  }

  lemma KeptNext(raw: seq<Fact>, fs: seq<Fact>, at: seq<nat>, f: Fact)
    requires KeptFrom(raw, fs, at)
    ensures f.importance >= 0.5 ==>
      KeptFrom(raw + [f], fs + [f.(importance := if f.importance > 1.0 then 1.0 else f.importance)], at + [|raw|])
    ensures f.importance < 0.5 ==> KeptFrom(raw + [f], fs, at)
  {
    var all := at + [|raw|];
    assert all[|at|] == |raw| && forall i :: i in at ==> i in all;
  }

  // ----- rows -----

  predicate Live(r: Row, key: string) { !r.deleted && r.key == key }

  /** Position of the first live row with this key, or |rows|. */
  function Find(rows: seq<Row>, key: string): (n: nat)
    ensures n <= |rows| && (n < |rows| ==> Live(rows[n], key))
    ensures forall i :: 0 <= i < n ==> !Live(rows[i], key)
  {
    if rows == [] || Live(rows[0], key) then 0 else 1 + Find(rows[1..], key)
  }

  predicate UniqueKeys(rows: seq<Row>) {
    forall i, j :: 0 <= i < j < |rows| && !rows[i].deleted && !rows[j].deleted ==> rows[i].key != rows[j].key
  }

  /** The live row with this key. */
  function Lookup(rows: seq<Row>, key: string): Option<Row> {
    var n := Find(rows, key);
    if n < |rows| then Some(rows[n]) else None
  }

  function FromFact(f: Fact, kind: Kind): Row {
    Row(f.key, f.value, f.importance, kind, Distillation, false)
  }

  function Upsert(rows: seq<Row>, f: Fact, kind: Kind): seq<Row> {
    var n := Find(rows, f.key);
    if n == |rows| then rows + [FromFact(f, kind)]
    else if f.importance >= rows[n].importance then rows[n := FromFact(f, kind)]
    else rows
  }

  function UpsertAll(rows: seq<Row>, fs: seq<Fact>, kind: Kind): seq<Row> {
    if fs == [] then rows else Upsert(UpsertAll(rows, fs[..|fs| - 1], kind), fs[|fs| - 1], kind)
  }

  /** `memory_store`: overwrite the value, keeping the importance, or add a row of importance 0.5. */
  function Store(rows: seq<Row>, key: string, value: string): seq<Row> {
    var n := Find(rows, key);
    if n == |rows| then rows + [Row(key, value, 0.5, LongTerm, Agent, false)]
    else rows[n := rows[n].(value := value, source := Agent)]
  }

  function Delete(rows: seq<Row>, key: string): seq<Row> {
    var n := Find(rows, key);
    if n == |rows| then rows else rows[n := rows[n].(deleted := true)]
  }

  /** Important short-term rows are promoted, and then unimportant ones deleted. */
  function ConsolidatedRow(r: Row): Row {
    if r.deleted || !r.kind.ShortTerm? then r
    else if r.importance >= 0.7 then r.(kind := LongTerm, source := Consolidation)
    else if r.importance < 0.5 then r.(deleted := true)
    else r
  }

  function Consolidated(rows: seq<Row>): (r: seq<Row>)
    ensures |r| == |rows| && forall i :: 0 <= i < |r| ==> r[i] == ConsolidatedRow(rows[i])
  {
    seq(|rows|, i requires 0 <= i < |rows| => ConsolidatedRow(rows[i]))
  }

  // ----- what the operations count -----

  /** How many facts of a batch overwrite a row. */
  function Overwrites(rows: seq<Row>, fs: seq<Fact>, kind: Kind): nat {
    if fs == [] then 0
    else
      var before, f := UpsertAll(rows, fs[..|fs| - 1], kind), fs[|fs| - 1];
      var had := Lookup(before, f.key);
      Overwrites(rows, fs[..|fs| - 1], kind) + if had.Some? && f.importance >= had.value.importance then 1 else 0
  }

  /** The facts that find a live row of their key with no higher importance. */
  ghost function OverwritingFacts(rows: seq<Row>, fs: seq<Fact>, kind: Kind): set<nat> {
    set i: nat | i < |fs| && (
      var had := Lookup(UpsertAll(rows, fs[..i], kind), fs[i].key);
      had.Some? && had.value.importance <= fs[i].importance)
  }

  lemma {:induction false} OverwritesAre(rows: seq<Row>, fs: seq<Fact>, kind: Kind)
    ensures Overwrites(rows, fs, kind) == |OverwritingFacts(rows, fs, kind)|
  {
    if fs == [] {
      assert OverwritingFacts(rows, fs, kind) == {};
    } else {
      var init := fs[..|fs| - 1];
      OverwritesAre(rows, init, kind);
      OverwritingSnoc(rows, init, fs[|fs| - 1], kind);
      assert fs == init + [fs[|fs| - 1]];
      hide Lookup, UpsertAll;
    }
  }

  lemma OverwritingSnoc(rows: seq<Row>, fs: seq<Fact>, f: Fact, kind: Kind)
    ensures var had := Lookup(UpsertAll(rows, fs, kind), f.key);
      OverwritingFacts(rows, fs + [f], kind) == OverwritingFacts(rows, fs, kind)
        + if had.Some? && had.value.importance <= f.importance then {|fs|} else {}
  {
    hide Lookup, UpsertAll;
    assert forall i :: 0 <= i <= |fs| ==> (fs + [f])[..i] == fs[..i];
    assert fs[..|fs|] == fs;
  }

  /** How many rows a consolidation changes into long-term ones. */
  function Promotions(rows: seq<Row>): nat {
    if rows == [] then 0
    else
      var r := rows[|rows| - 1];
      Promotions(rows[..|rows| - 1]) + if r.kind.ShortTerm? && ConsolidatedRow(r).kind.LongTerm? then 1 else 0
  }

  /** How many rows a consolidation deletes. */
  function Discards(rows: seq<Row>): nat {
    if rows == [] then 0
    else
      var r := rows[|rows| - 1];
      Discards(rows[..|rows| - 1]) + if !r.deleted && ConsolidatedRow(r).deleted then 1 else 0
  }

  lemma {:induction false} WorthyKept(rows: seq<Row>)
    requires forall i :: 0 <= i < |rows| && !rows[i].deleted ==> rows[i].importance >= 0.5
    ensures Discards(rows) == 0
  {
    if rows != [] { WorthyKept(rows[..|rows| - 1]); }
  }

  // ----- what a batch of facts leaves -----

  /** The winner among the existing row and the facts with this key: the last one of the highest
      importance, the existing row counting as the first. */
  predicate IsWinner(existing: Option<Row>, fs: seq<Fact>, key: string, kind: Kind, r: Row) {
    && (existing.Some? ==> r.importance >= existing.value.importance)
    && (forall i :: 0 <= i < |fs| && fs[i].key == key ==> r.importance >= fs[i].importance)
    && ((exists i :: 0 <= i < |fs| && LastBest(fs, i, key, r.importance)
            && r == Row(key, fs[i].value, fs[i].importance, kind, Distillation, false))
        || (existing == Some(r) && forall i :: 0 <= i < |fs| && fs[i].key == key ==> fs[i].importance < r.importance))
  }

  /** Fact `i` has this key and importance, and no later fact with the key reaches it. */
  predicate LastBest(fs: seq<Fact>, i: nat, key: string, importance: real) {
    && i < |fs| && fs[i].key == key && fs[i].importance == importance
    && forall j :: i < j < |fs| && fs[j].key == key ==> fs[j].importance < importance
  }

  lemma FindUnique(rows: seq<Row>, i: nat, key: string)
    requires UniqueKeys(rows) && i < |rows| && Live(rows[i], key)
    ensures Find(rows, key) == i
  {
  }

  lemma UpsertLookup(rows: seq<Row>, f: Fact, kind: Kind, key: string)
    requires UniqueKeys(rows)
    ensures var r := Upsert(rows, f, kind);
      && UniqueKeys(r)
      && Lookup(r, key) == (
          if f.key != key then Lookup(rows, key)
          else if Lookup(rows, key).Some? && f.importance < Lookup(rows, key).value.importance then Lookup(rows, key)
          else Some(FromFact(f, kind)))
  {
    var r := Upsert(rows, f, kind);
    var n := Find(rows, f.key);
    assert UniqueKeys(r);
    if f.key == key {
      if n == |rows| || f.importance >= rows[n].importance { FindUnique(r, n, key); }
    } else {
      var m := Find(rows, key);
      if m < |rows| {
        assert r[m] == rows[m];
        FindUnique(r, m, key);
      } else {
        forall i | 0 <= i < |r| ensures !Live(r[i], key) { }
      }
    }
  }

  /** After a batch each key holds the last fact of maximal importance, the existing row counting
      first; keys without a fact are untouched, and keys stay unique. */
  lemma {:induction false} BatchTheorem(rows: seq<Row>, fs: seq<Fact>, kind: Kind, key: string)
    requires UniqueKeys(rows)
    ensures var r := UpsertAll(rows, fs, kind);
      && UniqueKeys(r)
      && (if Lookup(rows, key).Some? || exists i :: 0 <= i < |fs| && fs[i].key == key
          then Lookup(r, key).Some? && IsWinner(Lookup(rows, key), fs, key, kind, Lookup(r, key).value)
          else Lookup(r, key) == None)
  {
    if fs != [] {
      var init, f := fs[..|fs| - 1], fs[|fs| - 1];
      BatchTheorem(rows, init, kind, key);
      var mid := UpsertAll(rows, init, kind);
      UpsertLookup(mid, f, kind, key);
      var had := Lookup(mid, key);
      assert forall i :: 0 <= i < |init| ==> fs[i] == init[i];
      if f.key == key && (had.None? || f.importance >= had.value.importance) {
        NewWinner(Lookup(rows, key), fs, key, kind, had);
      } else if had.Some? {
        OldWinner(Lookup(rows, key), fs, key, kind, had.value);
      }
    }
  }

  lemma NewWinner(existing: Option<Row>, fs: seq<Fact>, key: string, kind: Kind, had: Option<Row>)
    requires fs != [] && fs[|fs| - 1].key == key
    requires had.Some? ==> IsWinner(existing, fs[..|fs| - 1], key, kind, had.value) && fs[|fs| - 1].importance >= had.value.importance
    requires had.None? ==> existing.None? && forall i :: 0 <= i < |fs| - 1 ==> fs[i].key != key
    ensures IsWinner(existing, fs, key, kind, FromFact(fs[|fs| - 1], kind))
  {
  }

  lemma OldWinner(existing: Option<Row>, fs: seq<Fact>, key: string, kind: Kind, r: Row)
    requires fs != [] && IsWinner(existing, fs[..|fs| - 1], key, kind, r)
    requires fs[|fs| - 1].key == key ==> fs[|fs| - 1].importance < r.importance
    ensures IsWinner(existing, fs, key, kind, r)
  {
    var init := fs[..|fs| - 1];
    assert forall i :: 0 <= i < |init| ==> init[i] == fs[i];
    if i :| 0 <= i < |init| && LastBest(init, i, key, r.importance) && r == FromFact(init[i], kind) {
      assert LastBest(fs, i, key, r.importance) && r == FromFact(fs[i], kind);
    }
  }

  /** Storing puts the value under its key, with the importance and kind it had, or 0.5 and long-term for a
      new one; deleting leaves nothing under the key; neither touches other keys. */
  lemma StoreIs(rows: seq<Row>, key: string, value: string)
    requires UniqueKeys(rows)
    ensures var had, r := Lookup(rows, key), Store(rows, key, value);
      && Lookup(r, key) == Some(
           if had.Some? then had.value.(value := value, source := Agent) else Row(key, value, 0.5, LongTerm, Agent, false))
      && forall k :: k != key ==> Lookup(r, k) == Lookup(rows, k)
  {
    var r, n := Store(rows, key, value), Find(rows, key);
    assert UniqueKeys(r);
    FindUnique(r, n, key);
    forall k | k != key ensures Lookup(r, k) == Lookup(rows, k) {
      OtherKey(rows, r, k);
    }
  }

  lemma DeleteIs(rows: seq<Row>, key: string)
    requires UniqueKeys(rows)
    ensures Lookup(Delete(rows, key), key) == None
    ensures forall k :: k != key ==> Lookup(Delete(rows, key), k) == Lookup(rows, k)
  {
    forall k | k != key ensures Lookup(Delete(rows, key), k) == Lookup(rows, k) {
      OtherKey(rows, Delete(rows, key), k);
    }
  }

  /** A key all of whose rows are as they were holds what it held. */
  lemma OtherKey(rows: seq<Row>, r: seq<Row>, key: string)
    requires UniqueKeys(rows) && UniqueKeys(r) && |rows| <= |r|
    requires forall i :: 0 <= i < |rows| && (Live(rows[i], key) || Live(r[i], key)) ==> r[i] == rows[i]
    requires forall i :: |rows| <= i < |r| ==> !Live(r[i], key)
    ensures Lookup(r, key) == Lookup(rows, key)
  {
    var n := Find(rows, key);
    if n < |rows| { FindUnique(r, n, key); }
  }

  // ----- every run of the memory operations -----

  datatype Op = Distill(raw: seq<Fact>, kind: Kind) | StoreOp(key: string, value: string) | DeleteOp(key: string) | Consolidate

  function Apply(rows: seq<Row>, op: Op): seq<Row> {
    match op
    case Distill(raw, kind) => UpsertAll(rows, Filtered(raw), kind)
    case StoreOp(key, value) => Store(rows, key, value)
    case DeleteOp(key) => Delete(rows, key)
    case Consolidate => Consolidated(rows)
  }

  function Run(ops: seq<Op>): seq<Row> {
    if ops == [] then [] else Apply(Run(ops[..|ops| - 1]), ops[|ops| - 1])
  }

  /** Keys are unique and no live memory has an importance below 0.5. */
  predicate Worthy(rows: seq<Row>) {
    UniqueKeys(rows) && forall i :: 0 <= i < |rows| && !rows[i].deleted ==> rows[i].importance >= 0.5
  }

  lemma UpsertWorthy(rows: seq<Row>, f: Fact, kind: Kind)
    requires Worthy(rows) && f.importance >= 0.5
    ensures Worthy(Upsert(rows, f, kind))
  {
  }

  lemma {:induction false} BatchWorthy(rows: seq<Row>, fs: seq<Fact>, kind: Kind)
    requires Worthy(rows) && forall i :: 0 <= i < |fs| ==> fs[i].importance >= 0.5
    ensures Worthy(UpsertAll(rows, fs, kind))
  {
    if fs != [] {
      BatchWorthy(rows, fs[..|fs| - 1], kind);
      UpsertWorthy(UpsertAll(rows, fs[..|fs| - 1], kind), fs[|fs| - 1], kind);
    }
  }

  lemma StoreWorthy(rows: seq<Row>, key: string, value: string)
    requires Worthy(rows)
    ensures Worthy(Store(rows, key, value))
  {
  }

  lemma DeleteWorthy(rows: seq<Row>, key: string)
    requires Worthy(rows)
    ensures Worthy(Delete(rows, key))
  {
  }

  lemma ConsolidateWorthy(rows: seq<Row>)
    requires Worthy(rows)
    ensures Worthy(Consolidated(rows))
  {
  }

  lemma ApplyWorthy(rows: seq<Row>, op: Op)
    requires Worthy(rows)
    ensures Worthy(Apply(rows, op))
  {
    match op
    case Distill(raw, kind) => BatchWorthy(rows, Filtered(raw), kind);
    case StoreOp(key, value) => StoreWorthy(rows, key, value);
    case DeleteOp(key) => DeleteWorthy(rows, key);
    case Consolidate => ConsolidateWorthy(rows);
  }

  /** What one consolidation does to a table of worthy memories: it discards none of them, leaves
      short-term ones only between 0.5 and 0.7, and doing it again changes nothing. */
  lemma ConsolidationTheorem(rows: seq<Row>)
    requires Worthy(rows)
    ensures var c := Consolidated(rows);
      && (forall i :: 0 <= i < |rows| ==>
            c[i].deleted == rows[i].deleted && c[i].value == rows[i].value && c[i].importance == rows[i].importance)
      && (forall i :: 0 <= i < |c| && !c[i].deleted && c[i].kind.ShortTerm? ==> 0.5 <= c[i].importance < 0.7)
      && Consolidated(c) == c
  {
  }

  /** In any table the live short-term rows of at least 0.7 become long-term and those below 0.5 are deleted;
      nothing else changes. The counts are the numbers of these. */
  lemma ConsolidationIs(rows: seq<Row>)
    ensures var c := Consolidated(rows);
      && |c| == |rows|
      && (forall i :: 0 <= i < |rows| ==>
            var r := rows[i];
            if !r.deleted && r.kind == ShortTerm && r.importance >= 0.7 then c[i] == Row(r.key, r.value, r.importance, LongTerm, Consolidation, false)
            else if !r.deleted && r.kind == ShortTerm && r.importance < 0.5 then c[i] == r.(deleted := true)
            else c[i] == r)
      && Promotions(rows) == |PlacesOf(rows, 0.7, true)| && Discards(rows) == |PlacesOf(rows, 0.5, false)|
  {
    PromotionsAre(rows);
    DiscardsAre(rows);
  }

  /** The places of live short-term rows that reach the bound, or that do not. */
  ghost function PlacesOf(rows: seq<Row>, bound: real, reach: bool): set<nat> {
    set i: nat | i < |rows| && !rows[i].deleted && rows[i].kind == ShortTerm && (rows[i].importance >= bound <==> reach)
  }

  lemma PlacesSnoc(rows: seq<Row>, bound: real, reach: bool)
    requires rows != []
    ensures var n, r := |rows| - 1, rows[|rows| - 1];
      PlacesOf(rows, bound, reach) == PlacesOf(rows[..n], bound, reach)
        + if !r.deleted && r.kind == ShortTerm && (r.importance >= bound <==> reach) then {n} else {}
  {
  }

  lemma {:induction false} PromotionsAre(rows: seq<Row>)
    ensures Promotions(rows) == |PlacesOf(rows, 0.7, true)|
  {
    if rows == [] {
      assert PlacesOf(rows, 0.7, true) == {};
    } else {
      PromotionsAre(rows[..|rows| - 1]);
      PlacesSnoc(rows, 0.7, true);
    }
  }

  lemma {:induction false} DiscardsAre(rows: seq<Row>)
    ensures Discards(rows) == |PlacesOf(rows, 0.5, false)|
  {
    if rows == [] {
      assert PlacesOf(rows, 0.5, false) == {};
    } else {
      DiscardsAre(rows[..|rows| - 1]);
      PlacesSnoc(rows, 0.5, false);
    }
  }

  /** Starting from no memories, no run of distilling, storing, deleting and consolidating leaves a
      live memory below 0.5 or two with one key. */
  lemma {:induction false} RunWorthy(ops: seq<Op>)
    ensures Worthy(Run(ops))
  {
    if ops != [] {
      RunWorthy(ops[..|ops| - 1]);
      ApplyWorthy(Run(ops[..|ops| - 1]), ops[|ops| - 1]);
    }
  }

  // ----- the program -----

  class MemoryDao {
    var rows: seq<Row>

    constructor ()
      ensures rows == []
    {
      rows := [];
    }

    method UpsertFromDistillation(facts: seq<Fact>, kind: Kind) returns (inserted: nat, updated: nat)
      modifies this
      ensures rows == UpsertAll(old(rows), facts, kind)
      ensures |rows| == |old(rows)| + inserted && updated == Overwrites(old(rows), facts, kind)
    {
      hide Upsert, Lookup;
      inserted, updated := 0, 0;
      var i := 0;
      assert facts[..0] == [];
      while i < |facts|
        invariant 0 <= i <= |facts|
        invariant rows == UpsertAll(old(rows), facts[..i], kind)
        invariant |rows| == |old(rows)| + inserted && updated == Overwrites(old(rows), facts[..i], kind)
      {
        assert facts[..i + 1][..i] == facts[..i];
        var isNew, changed := UpsertOne(facts[i], kind);
        if isNew {
          inserted := inserted + 1;
        } else if changed {
          updated := updated + 1;
        }
        i := i + 1;
      }
      assert facts[..i] == facts;
    }

    method UpsertOne(fact: Fact, kind: Kind) returns (isNew: bool, changed: bool)
      modifies this
      ensures rows == Upsert(old(rows), fact, kind) && |rows| == |old(rows)| + if isNew then 1 else 0
      ensures var had := Lookup(old(rows), fact.key);
        && isNew == had.None? && changed == (had.Some? && fact.importance >= had.value.importance)
    {
      var n := Find(rows, fact.key);
      isNew, changed := n == |rows|, false;
      if n < |rows| {
        if fact.importance >= rows[n].importance {
          rows := rows[n := rows[n].(value := fact.value, importance := fact.importance, kind := kind, source := Distillation)];
          changed := true;
        }
      } else {
        rows := rows + [Row(fact.key, fact.value, fact.importance, kind, Distillation, false)];
      }
    }

    /** A pass that promotes and then a pass that deletes. */
    method ConsolidateToLongTerm() returns (promoted: nat, discarded: nat)
      modifies this
      ensures rows == Consolidated(old(rows))
      ensures promoted == Promotions(old(rows)) && discarded == Discards(old(rows))
      ensures Worthy(old(rows)) ==> discarded == 0
    {
      if Worthy(rows) { WorthyKept(rows); }
      ghost var start := rows;
      promoted := PromoteAll();
      discarded := DiscardAll(start);
    }

    method PromoteAll() returns (promoted: nat)
      modifies this
      ensures |rows| == |old(rows)| && forall k :: 0 <= k < |rows| ==> rows[k] == Promoted(old(rows)[k])
      ensures promoted == Promotions(old(rows))
    {
      promoted := 0;
      ghost var start := rows;
      var i := 0;
      while i < |rows|
        invariant 0 <= i <= |rows| == |start|
        invariant forall k :: 0 <= k < |rows| ==> rows[k] == if k < i then Promoted(start[k]) else start[k]
        invariant promoted == Promotions(start[..i])
      {
        assert start[..i + 1][..i] == start[..i];
        if !rows[i].deleted && rows[i].kind.ShortTerm? && rows[i].importance >= 0.7 {
          rows := rows[i := rows[i].(kind := LongTerm, source := Consolidation)];
          promoted := promoted + 1;
        }
        i := i + 1;
      }
      assert start[..i] == start;
    }

    method DiscardAll(ghost start: seq<Row>) returns (discarded: nat)
      requires |rows| == |start| && forall k :: 0 <= k < |rows| ==> rows[k] == Promoted(start[k])
      modifies this
      ensures rows == Consolidated(start) && discarded == Discards(start)
    {
      discarded := 0;
      var i := 0;
      while i < |rows|
        invariant 0 <= i <= |rows| == |start|
        invariant forall k :: 0 <= k < |rows| ==> rows[k] == if k < i then ConsolidatedRow(start[k]) else Promoted(start[k])
        invariant discarded == Discards(start[..i])
      {
        assert start[..i + 1][..i] == start[..i];
        if !rows[i].deleted && rows[i].kind.ShortTerm? && rows[i].importance < 0.5 {
          rows := rows[i := rows[i].(deleted := true)];
          discarded := discarded + 1;
        }
        i := i + 1;
      }
      assert start[..i] == start;
    }
  }

  function Promoted(r: Row): Row {
    if !r.deleted && r.kind.ShortTerm? && r.importance >= 0.7 then r.(kind := LongTerm, source := Consolidation) else r
  }
}
