/** Reciprocal rank fusion of two search results. Scores are exact reals. */
module RankFusion {

  type DocId = nat

  /** A search answers with a ranking, best first, or fails. */
  datatype Hits = Failed | Ranking(ids: seq<DocId>)

  datatype Scored = Scored(id: DocId, score: real)

  const RANK_CONSTANT := 60

  /** What a hit at position `rank`, counted from 0, adds. */
  function Weight(rank: nat): real {
    1.0 / (RANK_CONSTANT + rank + 1) as real
  }

  predicate Distinct(ids: seq<DocId>) {
    forall i, j :: 0 <= i < j < |ids| ==> ids[i] != ids[j]
  }

  function IdsOf(h: Hits): seq<DocId> {
    if h.Failed? then [] else h.ids
  }

  /** What one ranking gives a document. */
  function Share(ids: seq<DocId>, d: DocId): real {
    if ids == [] then 0.0
    else Share(ids[..|ids| - 1], d) + if ids[|ids| - 1] == d then Weight(|ids| - 1) else 0.0
  }

  function Score(a: Hits, b: Hits, d: DocId): real {
    Share(IdsOf(a), d) + Share(IdsOf(b), d)
  }

  // ----- the dictionary of scores, in insertion order -----

  predicate Keys(table: seq<Scored>) {
    forall i, j :: 0 <= i < j < |table| ==> table[i].id != table[j].id
  }

  predicate HasId(table: seq<Scored>, d: DocId) {
    exists i :: 0 <= i < |table| && table[i].id == d
  }

  function ScoreIn(table: seq<Scored>, d: DocId): real {
    if table == [] then 0.0
    else if table[0].id == d then table[0].score
    else ScoreIn(table[1..], d)
  }

  /** `if d not in rrf: rrf[d] = 0` and then `rrf[d] += w` */
  function Bump(table: seq<Scored>, d: DocId, w: real): seq<Scored> {
    if table == [] then [Scored(d, 0.0 + w)]
    else if table[0].id == d then [Scored(d, table[0].score + w)] + table[1..]
    else [table[0]] + Bump(table[1..], d, w)
  }

  lemma {:induction false} BumpIs(table: seq<Scored>, d: DocId, w: real)
    requires Keys(table)
    ensures var r := Bump(table, d, w);
      && Keys(r)
      && (forall x :: HasId(r, x) <==> x == d || HasId(table, x))
      && (forall x :: ScoreIn(r, x) == ScoreIn(table, x) + if x == d then w else 0.0)
  {
    var r := Bump(table, d, w);
    if table == [] {
      assert forall x :: HasId([Scored(d, w)], x) <==> x == d by {
        assert [Scored(d, w)][0].id == d;
      }
    } else {
      var rest := table[1..];
      HasIdCons(table);
      HasIdCons(r);
      assert Keys(rest);
      if table[0].id == d {
        assert r[1..] == rest;
        assert Keys(r);
      } else {
        BumpIs(rest, d, w);
        assert r[1..] == Bump(rest, d, w);
        KeysCons(table[0], Bump(rest, d, w));
      }
    }
  }

  lemma KeysCons(x: Scored, rest: seq<Scored>)
    requires Keys(rest) && !HasId(rest, x.id)
    ensures Keys([x] + rest)
  {
  }

  lemma HasIdCons(table: seq<Scored>)
    requires table != []
    ensures forall x :: HasId(table, x) <==> x == table[0].id || HasId(table[1..], x)
    ensures Keys(table) ==> !HasId(table[1..], table[0].id)
  {
  }

  // ----- sorting by score, highest first -----

  predicate Sorted(table: seq<Scored>) {
    forall i, j :: 0 <= i < j < |table| ==> table[i].score >= table[j].score
  }

  /** After all entries with the same or a higher score, so that sorting is stable. */
  function Insert(x: Scored, table: seq<Scored>): seq<Scored> {
    if table == [] || x.score > table[0].score then [x] + table
    else [table[0]] + Insert(x, table[1..])
  }

  /** `sorted(..., key=score, reverse=True)` */
  function SortDescending(table: seq<Scored>): seq<Scored> {
    if table == [] then [] else Insert(table[|table| - 1], SortDescending(table[..|table| - 1]))
  }

  /** The same entries, whose ids are distinct. */
  ghost predicate Rearranged(a: seq<Scored>, b: seq<Scored>) {
    Keys(a) && Keys(b) && |a| == |b| && forall x :: x in a <==> x in b
  }

  lemma {:induction false} InsertKeeps(x: Scored, table: seq<Scored>)
    ensures var r := Insert(x, table);
      |r| == |table| + 1 && forall y :: y in r <==> y == x || y in table
  {
    if table != [] && !(x.score > table[0].score) {
      InsertKeeps(x, table[1..]);
      assert table == [table[0]] + table[1..];
    }
  }

  lemma {:induction false} InsertSorts(x: Scored, table: seq<Scored>)
    requires Sorted(table)
    ensures Sorted(Insert(x, table))
  {
    if table != [] && !(x.score > table[0].score) {
      var rest := table[1..];
      InsertSorts(x, rest);
      InsertKeeps(x, rest);
      var r := Insert(x, rest);
      forall i | 0 <= i < |r| ensures r[i].score <= table[0].score {
        assert r[i] in r;
      }
    }
  }

  lemma SameIds(a: seq<Scored>, b: seq<Scored>)
    requires forall y :: y in a <==> y in b
    ensures forall d :: HasId(a, d) <==> HasId(b, d)
  {
    SomeIds(a, b);
    SomeIds(b, a);
  }

  lemma SomeIds(a: seq<Scored>, b: seq<Scored>)
    requires forall y :: y in a ==> y in b
    ensures forall d :: HasId(a, d) ==> HasId(b, d)
  {
    forall d | HasId(a, d) ensures HasId(b, d) {
      var i :| 0 <= i < |a| && a[i].id == d;
      assert a[i] in b;
    }
  }

  lemma {:induction false} InsertKeys(x: Scored, table: seq<Scored>)
    requires Keys(table) && !HasId(table, x.id)
    ensures Keys(Insert(x, table))
  {
    if table != [] && !(x.score > table[0].score) {
      var rest := table[1..];
      HasIdCons(table);
      InsertKeys(x, rest);
      InsertKeeps(x, rest);
      SameIds([x] + rest, Insert(x, rest));
      HasIdCons([x] + rest);
      KeysCons(table[0], Insert(x, rest));
    }
  }

  lemma {:induction false} SortIs(table: seq<Scored>)
    requires Keys(table)
    ensures Sorted(SortDescending(table)) && Rearranged(table, SortDescending(table))
  {
    if table != [] {
      var init, last := table[..|table| - 1], table[|table| - 1];
      SortIs(init);
      var s := SortDescending(init);
      SameIds(init, s);
      assert forall i :: 0 <= i < |init| ==> init[i] == table[i];
      InsertSorts(last, s);
      InsertKeeps(last, s);
      InsertKeys(last, s);
      assert table == init + [last];
    }
  }

  // ----- the merge -----

  class Merger {
    var rrf: seq<Scored>

    constructor ()
      ensures rrf == []
    {
      rrf := [];
    }

    /** One loop over a search's hits. */
    method Accumulate(hits: Hits)
      requires Keys(rrf)
      modifies this
      ensures Keys(rrf)
      ensures forall d :: HasId(rrf, d) <==> old(HasId(rrf, d)) || d in IdsOf(hits)
      ensures forall d :: ScoreIn(rrf, d) == old(ScoreIn(rrf, d)) + Share(IdsOf(hits), d)
    {
      if hits.Failed? {
        return;
      }
      ghost var before := rrf;
      var ids := hits.ids;
      var rank := 0;
      assert ids[..0] == [];
      while rank < |ids|
        invariant 0 <= rank <= |ids| && Keys(rrf)
        invariant forall d :: HasId(rrf, d) <==> HasId(before, d) || d in ids[..rank]
        invariant forall d :: ScoreIn(rrf, d) == ScoreIn(before, d) + Share(ids[..rank], d)
      {
        assert ids[..rank + 1][..rank] == ids[..rank];
        BumpIs(rrf, ids[rank], Weight(rank));
        rrf := Bump(rrf, ids[rank], Weight(rank));
        rank := rank + 1;
      }
      assert ids[..rank] == ids;
    }

    /** The best documents of the two searches, best first. */
    method Merge(knn: Hits, bm25: Hits, topK: nat) returns (best: seq<Scored>)
      requires rrf == []
      modifies this
      ensures IsMerge(knn, bm25, topK, best)
    {
      Accumulate(knn);
      Accumulate(bm25);
      SortIs(rrf);
      var sorted := SortDescending(rrf);
      best := if |sorted| > topK then sorted[..topK] else sorted;
      MergeIs(knn, bm25, topK, rrf, sorted, best);
    }
  }

  predicate Found(a: Hits, b: Hits, d: DocId) {
    d in IdsOf(a) || d in IdsOf(b)
  }

  /** `best` are distinct found documents with their fused scores, highest first; as many as asked
      for or as there are; and no document left out scores higher than one returned. */
  ghost predicate IsMerge(a: Hits, b: Hits, topK: nat, best: seq<Scored>) {
    && Keys(best) && Sorted(best) && |best| <= topK
    && (forall i :: 0 <= i < |best| ==> Found(a, b, best[i].id) && best[i].score == Score(a, b, best[i].id))
    && (forall d :: Found(a, b, d) && !HasId(best, d) ==>
          |best| == topK && forall i :: 0 <= i < |best| ==> best[i].score >= Score(a, b, d))
  }

  lemma {:induction false} ScoreInIs(table: seq<Scored>, i: nat)
    requires Keys(table) && i < |table|
    ensures ScoreIn(table, table[i].id) == table[i].score
  {
    if i > 0 {
      assert Keys(table[1..]);
      ScoreInIs(table[1..], i - 1);
    }
  }

  lemma MergeIs(a: Hits, b: Hits, topK: nat, table: seq<Scored>, sorted: seq<Scored>, best: seq<Scored>)
    requires Sorted(sorted) && Rearranged(table, sorted)
    requires forall d :: HasId(table, d) <==> Found(a, b, d)
    requires forall d :: ScoreIn(table, d) == Score(a, b, d)
    requires best == if |sorted| > topK then sorted[..topK] else sorted
    ensures IsMerge(a, b, topK, best)
  {
    hide Found, Score, ScoreIn, HasId;
    forall i | 0 <= i < |sorted|
      ensures Found(a, b, sorted[i].id) && sorted[i].score == Score(a, b, sorted[i].id)
    {
      assert sorted[i] in table;
      ScoreOf(table, sorted[i]);
    }
    SameIds(table, sorted);
    forall d | HasId(sorted, d) && !HasId(best, d)
      ensures |best| == topK && forall i :: 0 <= i < |best| ==> best[i].score >= Score(a, b, d)
    {
      var m := LeftOut(sorted, best, d);
    }
  }

  lemma ScoreOf(table: seq<Scored>, x: Scored)
    requires Keys(table) && x in table
    ensures HasId(table, x.id) && ScoreIn(table, x.id) == x.score
  {
    var k :| 0 <= k < |table| && table[k] == x;
    ScoreInIs(table, k);
  }

  lemma LeftOut(sorted: seq<Scored>, best: seq<Scored>, d: DocId) returns (m: nat)
    requires |best| <= |sorted| && best == sorted[..|best|] && HasId(sorted, d) && !HasId(best, d)
    ensures |best| <= m < |sorted| && sorted[m].id == d
  {
    m :| 0 <= m < |sorted| && sorted[m].id == d;
    assert forall i :: 0 <= i < |best| ==> best[i] == sorted[i];
  }

  // ----- agreement between the searches wins -----

  lemma {:induction false} ShareIs(ids: seq<DocId>, d: DocId)
    requires Distinct(ids)
    ensures d !in ids ==> Share(ids, d) == 0.0
    ensures forall i :: 0 <= i < |ids| && ids[i] == d ==> Share(ids, d) == Weight(i)
  {
    if ids != [] {
      var init := ids[..|ids| - 1];
      ShareIs(init, d);
      if ids[|ids| - 1] == d {
        assert d !in init;
      } else {
        forall i | 0 <= i < |ids| && ids[i] == d ensures Share(ids, d) == Weight(i) {
          assert init[i] == d;
        }
      }
    }
  }

  /** `x` is what a document gets from a ranking: 1/61, 1/62 and so on by its place, or nothing. */
  ghost predicate Gets(ids: seq<DocId>, d: DocId, x: real) {
    if d in ids then exists i :: 0 <= i < |ids| && ids[i] == d && x == 1.0 / (61 + i) as real else x == 0.0
  }

  lemma ScoreIs(a: seq<DocId>, b: seq<DocId>, d: DocId)
    requires Distinct(a) && Distinct(b)
    ensures exists x, y :: Gets(a, d, x) && Gets(b, d, y) && Score(Ranking(a), Ranking(b), d) == x + y
    ensures exists x :: Gets(a, d, x) && Score(Ranking(a), Failed, d) == Score(Failed, Ranking(a), d) == x
  {
    ShareIs(a, d);
    ShareIs(b, d);
    assert Gets(a, d, Share(a, d)) && Gets(b, d, Share(b, d));
  }

  /** The documents of a ranking get 1/61, 1/62 and so on, in its order, so of two found by the same one of the
      searches only, the better ranked has the higher score. */
  lemma BetterRankWins(a: seq<DocId>, b: Hits, i: nat, j: nat)
    requires Distinct(a) && i < j < |a| && a[i] !in IdsOf(b) && a[j] !in IdsOf(b) && Distinct(IdsOf(b))
    ensures Score(Ranking(a), b, a[i]) == Score(b, Ranking(a), a[i]) == 1.0 / (61 + i) as real
    ensures Score(Ranking(a), b, a[i]) > Score(Ranking(a), b, a[j])
  {
    ShareIs(a, a[i]);
    ShareIs(a, a[j]);
    ShareIs(IdsOf(b), a[i]);
    ShareIs(IdsOf(b), a[j]);
    Reciprocals((61 + i) as real, (61 + j) as real);
  }

  lemma Reciprocals(x: real, y: real)
    requires 0.0 < x < y
    ensures 1.0 / x > 1.0 / y
  {
  }

  lemma WeightBounds(rank: nat, pool: nat)
    requires rank < pool
    ensures 1.0 / (RANK_CONSTANT + pool) as real <= Weight(rank) <= 1.0 / 61.0
  {
  }

  /** With rankings of at most `pool` distinct documents, everything found by both searches outranks
      everything found by only one, as long as the pool has at most 60 (three times a `top_k`
      of 20). */
  lemma BothBeatsOne(a: seq<DocId>, b: seq<DocId>, x: DocId, y: DocId)
    requires Distinct(a) && Distinct(b) && |a| <= 60 && |b| <= 60
    requires x in a && x in b && ((y in a && y !in b) || (y in b && y !in a))
    ensures Score(Ranking(a), Ranking(b), x) > Score(Ranking(a), Ranking(b), y)
  {
    ShareBounds(a, x);
    ShareBounds(b, x);
    ShareBounds(a, y);
    ShareBounds(b, y);
  }

  /** What one of at most 60 hits gives: nothing, or between 1/120 and 1/61. */
  lemma ShareBounds(ids: seq<DocId>, d: DocId)
    requires Distinct(ids) && |ids| <= 60
    ensures if d in ids then 1.0 / 120.0 <= Share(ids, d) <= 1.0 / 61.0 else Share(ids, d) == 0.0
  {
    ShareIs(ids, d);
    if d in ids {
      var k :| 0 <= k < |ids| && ids[k] == d;
      WeightBounds(k, 60);
    }
  }

  function Upto(n: nat, base: nat): (r: seq<DocId>)
    ensures |r| == n && forall i :: 0 <= i < n ==> r[i] == base + i
  {
    seq(n, i => base + i)
  }

  /** The bound is sharp: with a `top_k` of 21, and so 63 documents a search, the last one of both
      loses to the first one of either. */
  lemma TwentyIsSharp()
    ensures var a, b := Upto(62, 1) + [0], Upto(62, 100) + [0];
      && Distinct(a) && Distinct(b) && |a| == |b| == 3 * 21
      && 0 in a && 0 in b && 1 in a && 1 !in b
      && Score(Ranking(a), Ranking(b), 0) < Score(Ranking(a), Ranking(b), 1)
  {
    var a, b := Upto(62, 1) + [0], Upto(62, 100) + [0];
    assert a[62] == 0 && b[62] == 0 && a[0] == 1;
    ShareIs(a, 0);
    ShareIs(b, 0);
    ShareIs(a, 1);
    ShareIs(b, 1);
  }
}
