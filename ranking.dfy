/**
 * The ranking step shared by both `compare_to_professional` insights: the
 * per-professional results are sorted by similarity, highest first, with
 * Python's stable `list.sort(key=..., reverse=True)`, and summarised as the
 * best match and the first three entries.
 */
module Ranking {
  import opened Common

  /**
   * One entry of `all_matches`: the professional's name, the similarity of
   * the delivery to them, and the figure reported beside it (average speed
   * for a bowler, strike rate for a batsman).
   */
  datatype Match = Match(name: string, similarity: real, figure: real)

  /** The comparison result: `top_match` (None for an empty table) and `all_matches`. */
  datatype Comparison = Comparison(topMatch: Option<Match>, allMatches: seq<Match>)

  function Similarities(ms: seq<Match>): (ks: seq<real>)
    ensures |ks| == |ms| && forall i :: 0 <= i < |ms| ==> ks[i] == ms[i].similarity
  {
    seq(|ms|, i requires 0 <= i < |ms| => ms[i].similarity)
  }

  predicate Descending(ms: seq<Match>)
  {
    forall i, j :: 0 <= i < j < |ms| ==> ms[i].similarity >= ms[j].similarity
  }

  /**
   * Places `m` after every entry at least as similar, so entries with equal
   * similarity keep the order in which they arrived.
   */
  function Insert(m: Match, ms: seq<Match>): (r: seq<Match>)
    ensures |r| == |ms| + 1
  {
    if |ms| == 0 then [m]
    else if ms[0].similarity >= m.similarity then [ms[0]] + Insert(m, ms[1..])
    else [m] + ms
  }

  /** Insertion sort, highest similarity first, stable on ties. */
  function SortBySimilarity(ms: seq<Match>): (r: seq<Match>)
    ensures |r| == |ms|
  {
    if |ms| == 0 then []
    else Insert(ms[|ms| - 1], SortBySimilarity(ms[..|ms| - 1]))
  }

  /** Insertion adds exactly the one entry. */
  lemma {:induction false} InsertPermutes(m: Match, ms: seq<Match>)
    ensures multiset(Insert(m, ms)) == multiset(ms) + multiset{m}
  {
    if |ms| > 0 && ms[0].similarity >= m.similarity {
      InsertPermutes(m, ms[1..]);
      assert ms == [ms[0]] + ms[1..];
    }
  }

  /** An upper bound on every entry and on `m` bounds every entry after insertion. */
  lemma {:induction false} InsertBounded(m: Match, ms: seq<Match>, bound: real)
    requires m.similarity <= bound
    requires forall k :: 0 <= k < |ms| ==> ms[k].similarity <= bound
    ensures forall k :: 0 <= k < |Insert(m, ms)| ==> Insert(m, ms)[k].similarity <= bound
  {
    if |ms| > 0 && ms[0].similarity >= m.similarity {
      InsertBounded(m, ms[1..], bound);
    }
  }

  /** Inserting into a descending list keeps it descending. */
  lemma {:induction false} InsertDescending(m: Match, ms: seq<Match>)
    requires Descending(ms)
    ensures Descending(Insert(m, ms))
  {
    if |ms| > 0 {
      var r := Insert(m, ms);
      if ms[0].similarity >= m.similarity {
        var t := Insert(m, ms[1..]);
        InsertDescending(m, ms[1..]);
        InsertBounded(m, ms[1..], ms[0].similarity);
        assert r == [ms[0]] + t;
        forall i, j | 0 <= i < j < |r|
          ensures r[i].similarity >= r[j].similarity
        {
          assert r[j] == t[j - 1];
        }
      } else {
        assert r == [m] + ms;
        forall i, j | 0 <= i < j < |r|
          ensures r[i].similarity >= r[j].similarity
        {
          assert r[j] == ms[j - 1];
        }
      }
    }
  }

  /** The sorted list is a permutation of its input. */
  lemma {:induction false} SortPermutes(ms: seq<Match>)
    ensures multiset(SortBySimilarity(ms)) == multiset(ms)
  {
    if |ms| > 0 {
      var prefix := ms[..|ms| - 1];
      SortPermutes(prefix);
      InsertPermutes(ms[|ms| - 1], SortBySimilarity(prefix));
      assert ms == prefix + [ms[|ms| - 1]];
    }
  }

  /** The sorted list is descending. */
  lemma {:induction false} SortDescending(ms: seq<Match>)
    ensures Descending(SortBySimilarity(ms))
  {
    if |ms| > 0 {
      SortDescending(ms[..|ms| - 1]);
      InsertDescending(ms[|ms| - 1], SortBySimilarity(ms[..|ms| - 1]));
    }
  }

  /** The entries of `ms` whose similarity is `v`, in their order in `ms`. */
  function WithSimilarity(ms: seq<Match>, v: real): (r: seq<Match>)
    ensures |r| <= |ms|
  {
    if |ms| == 0 then []
    else (if ms[0].similarity == v then [ms[0]] else []) + WithSimilarity(ms[1..], v)
  }

  /** An entry is kept iff it is in the list with similarity `v`. */
  lemma {:induction false} WithSimilarityMembers(ms: seq<Match>, v: real)
    ensures forall m :: m in WithSimilarity(ms, v) <==> m in ms && m.similarity == v
  {
    if |ms| > 0 {
      WithSimilarityMembers(ms[1..], v);
      assert ms == [ms[0]] + ms[1..];
    }
  }

  /** Filtering by similarity distributes over concatenation. */
  lemma {:induction false} WithSimilarityAppend(a: seq<Match>, b: seq<Match>, v: real)
    ensures WithSimilarity(a + b, v) == WithSimilarity(a, v) + WithSimilarity(b, v)
  {
    if |a| > 0 {
      WithSimilarityAppend(a[1..], b, v);
      assert (a + b)[1..] == a[1..] + b;
    } else {
      assert a + b == b;
    }
  }

  /** The first entry is kept, or not, ahead of the rest. */
  lemma WithSimilarityCons(x: Match, t: seq<Match>, v: real)
    ensures WithSimilarity([x] + t, v) == (if x.similarity == v then [x] else []) + WithSimilarity(t, v)
  {
    assert ([x] + t)[0] == x && ([x] + t)[1..] == t;
  }

  /** A list without an entry of similarity `v` has no such entries to keep. */
  lemma {:induction false} NoneWithSimilarity(ms: seq<Match>, v: real)
    requires forall x :: x in ms ==> x.similarity != v
    ensures WithSimilarity(ms, v) == []
  {
    if |ms| > 0 {
      assert ms[0] in ms;
      NoneWithSimilarity(ms[1..], v);
    }
  }

  /** The tail of a descending list is descending. */
  lemma DescendingTail(ms: seq<Match>)
    requires |ms| > 0 && Descending(ms)
    ensures Descending(ms[1..])
  {
    forall i, j | 0 <= i < j < |ms[1..]|
      ensures ms[1..][i].similarity >= ms[1..][j].similarity
    {
      assert ms[1..][i] == ms[i + 1] && ms[1..][j] == ms[j + 1];
    }
  }

  /** No entry of a descending list is as similar as one above its head. */
  lemma NoTieAboveHead(m: Match, ms: seq<Match>)
    requires |ms| > 0 && Descending(ms) && ms[0].similarity < m.similarity
    ensures WithSimilarity(ms, m.similarity) == []
  {
    forall x | x in ms
      ensures x.similarity != m.similarity
    {
      var i :| 0 <= i < |ms| && ms[i] == x;
      assert ms[0].similarity >= ms[i].similarity;
    }
    NoneWithSimilarity(ms, m.similarity);
  }

  /**
   * Inserting `m` into a descending list puts it after every entry of equal
   * similarity: among its ties, `m` comes last.
   */
  lemma {:induction false} InsertStable(m: Match, ms: seq<Match>, v: real)
    requires Descending(ms)
    ensures WithSimilarity(Insert(m, ms), v) ==
      WithSimilarity(ms, v) + (if m.similarity == v then [m] else [])
  {
    var mine := if m.similarity == v then [m] else [];
    if |ms| == 0 {
      WithSimilarityCons(m, [], v);
      assert [m] + [] == [m];
    } else if ms[0].similarity >= m.similarity {
      var t := Insert(m, ms[1..]);
      var head := if ms[0].similarity == v then [ms[0]] else [];
      DescendingTail(ms);
      InsertStable(m, ms[1..], v);
      assert Insert(m, ms) == [ms[0]] + t;
      WithSimilarityCons(ms[0], t, v);
      assert WithSimilarity(Insert(m, ms), v) == head + (WithSimilarity(ms[1..], v) + mine);
      assert WithSimilarity(ms, v) == head + WithSimilarity(ms[1..], v);
    } else {
      InsertAheadStable(m, ms, v);
    }
  }

  /** Inserted at the front, above the head, `m` has no tie to pass. */
  lemma InsertAheadStable(m: Match, ms: seq<Match>, v: real)
    requires |ms| > 0 && Descending(ms) && ms[0].similarity < m.similarity
    ensures WithSimilarity(Insert(m, ms), v) ==
      WithSimilarity(ms, v) + (if m.similarity == v then [m] else [])
  {
    assert Insert(m, ms) == [m] + ms;
    WithSimilarityCons(m, ms, v);
    if m.similarity == v {
      NoTieAboveHead(m, ms);
      assert WithSimilarity(Insert(m, ms), v) == [m] + [];
    } else {
      assert WithSimilarity(Insert(m, ms), v) == [] + WithSimilarity(ms, v);
    }
  }

  /** The sort is stable: entries of equal similarity keep their order. */
  lemma {:induction false} SortStable(ms: seq<Match>, v: real)
    ensures WithSimilarity(SortBySimilarity(ms), v) == WithSimilarity(ms, v)
  {
    if |ms| > 0 {
      var prefix, last := ms[..|ms| - 1], ms[|ms| - 1];
      SortStable(prefix, v);
      SortDescending(prefix);
      InsertStable(last, SortBySimilarity(prefix), v);
      WithSimilarityAppend(prefix, [last], v);
      assert ms == prefix + [last];
      assert [last][1..] == [];
    }
  }

  /** A prefix's entries of one similarity are a prefix of the whole list's. */
  lemma WithSimilarityOfPrefix(ms: seq<Match>, k: nat, v: real)
    requires k <= |ms|
    ensures WithSimilarity(ms[..k], v) <= WithSimilarity(ms, v)
  {
    WithSimilarityAppend(ms[..k], ms[k..], v);
    assert ms == ms[..k] + ms[k..];
  }

  /**
   * The head of the sorted list is the first professional, in table order,
   * with the highest similarity: the sort is stable.
   */
  lemma {:induction false} SortHead(ms: seq<Match>)
    requires |ms| > 0
    ensures SortBySimilarity(ms)[0] == ms[ArgMaxFirst(Similarities(ms))]
  {
    if |ms| > 1 {
      var prefix := ms[..|ms| - 1];
      SortHead(prefix);
      assert Similarities(ms)[..|ms| - 1] == Similarities(prefix);
    }
  }

  /** `top_match` is the first sorted entry and `all_matches` the first three. */
  function Summarise(sorted: seq<Match>): (c: Comparison)
    ensures |c.allMatches| == (if |sorted| < 3 then |sorted| else 3)
    ensures c.allMatches == sorted[..|c.allMatches|]
    ensures c.topMatch.Some? <==> |sorted| > 0
    ensures c.topMatch.Some? ==> c.topMatch.value == c.allMatches[0]
  {
    Comparison(
      if |sorted| > 0 then Some(sorted[0]) else None,
      if |sorted| <= 3 then sorted else sorted[..3])
  }

  /**
   * What the comparison promises about the unsorted results `scored`: at
   * most three entries, highest similarity first, taken from `scored` with no
   * entry repeated more often than it occurs there; entries of equal
   * similarity in table order, the first of their ties in `scored`;
   * any result left out is no more similar than the third entry; and the
   * top match is the first result, in table order, of highest similarity.
   */
  ghost predicate RankedFrom(c: Comparison, scored: seq<Match>)
  {
    && |c.allMatches| == (if |scored| < 3 then |scored| else 3)
    && Descending(c.allMatches)
    && (forall m :: m in c.allMatches ==> m in scored)
    && multiset(c.allMatches) <= multiset(scored)
    && (forall v :: WithSimilarity(c.allMatches, v) <= WithSimilarity(scored, v))
    && (forall i :: 0 <= i < |scored| ==>
          scored[i] in c.allMatches ||
          (|c.allMatches| == 3 && scored[i].similarity <= c.allMatches[2].similarity))
    && (c.topMatch.Some? <==> |scored| > 0)
    && (|scored| > 0 ==>
          c.topMatch.value == c.allMatches[0] &&
          c.topMatch.value == scored[ArgMaxFirst(Similarities(scored))])
  }

  lemma RankMatches(scored: seq<Match>)
    ensures RankedFrom(Summarise(SortBySimilarity(scored)), scored)
  {
    SortDescending(scored);
    RankedEntriesAreScored(scored);
    ScoredEntriesAreRanked(scored);
    TiesKeepTableOrder(scored);
    if |scored| > 0 {
      SortHead(scored);
    }
  }

  /** Reported entries of equal similarity appear in table order, and form a prefix of their ties. */
  lemma TiesKeepTableOrder(scored: seq<Match>)
    ensures var all := Summarise(SortBySimilarity(scored)).allMatches;
      forall v :: WithSimilarity(all, v) <= WithSimilarity(scored, v)
  {
    var sorted := SortBySimilarity(scored);
    var all := Summarise(sorted).allMatches;
    forall v
      ensures WithSimilarity(all, v) <= WithSimilarity(scored, v)
    {
      SortStable(scored, v);
      WithSimilarityOfPrefix(sorted, |all|, v);
    }
  }

  /** Every reported entry is one of the results, reported no more often than it occurs. */
  lemma RankedEntriesAreScored(scored: seq<Match>)
    ensures forall m :: m in Summarise(SortBySimilarity(scored)).allMatches ==> m in scored
    ensures multiset(Summarise(SortBySimilarity(scored)).allMatches) <= multiset(scored)
  {
    var sorted := SortBySimilarity(scored);
    var all := Summarise(sorted).allMatches;
    SortPermutes(scored);
    assert sorted == all + sorted[|all|..];
    assert multiset(all) <= multiset(sorted);
    forall m | m in all
      ensures m in scored
    {
      assert m in multiset(all);
    }
  }

  /** A result left out of the report is no more similar than the third entry. */
  lemma ScoredEntriesAreRanked(scored: seq<Match>)
    ensures var all := Summarise(SortBySimilarity(scored)).allMatches;
      forall i :: 0 <= i < |scored| ==>
        scored[i] in all || (|all| == 3 && scored[i].similarity <= all[2].similarity)
  {
    var sorted := SortBySimilarity(scored);
    var all := Summarise(sorted).allMatches;
    SortPermutes(scored);
    SortDescending(scored);
    forall i | 0 <= i < |scored|
      ensures scored[i] in all || (|all| == 3 && scored[i].similarity <= all[2].similarity)
    {
      assert scored[i] in multiset(sorted);
      var j :| 0 <= j < |sorted| && sorted[j] == scored[i];
      if j >= |all| {
        assert all[2] == sorted[2];
      } else {
        assert all[j] == sorted[j];
      }
    }
  }
}
