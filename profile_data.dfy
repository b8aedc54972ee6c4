/**
 * The numbers the profiler aggregates, and the pure operations on them:
 * field-wise merge of profile maps, the top-level chain set of a caller
 * adjacency, the dict views used by `_update_with_data`, and `_relativize`.
 * Times are milliseconds as `real`; call counts are `int`.
 */
module ProfileData {
  import opened CallChain

  /**
   * Self time (`total`), time including callees (`cumulated`), number of calls
   * and number of non-recursive calls. The same four numbers describe one
   * function and one (function, call chain) caller edge.
   */
  datatype Profile = Profile(total: real, cumulated: real, counts: int, countsNonrec: int)

  /** The zero entry that `_add_stat` creates for an absent function or edge. */
  const Zero := Profile(0.0, 0.0, 0, 0)

  /** Field-wise sum. */
  function Add(a: Profile, b: Profile): Profile
  {
    Profile(a.total + b.total, a.cumulated + b.cumulated, a.counts + b.counts, a.countsNonrec + b.countsNonrec)
  }

  /** The entry for `k`, or zero when `k` is absent. */
  function Get<K>(m: map<K, Profile>, k: K): Profile
  {
    if k in m then m[k] else Zero
  }

  /**
   * The result of merging `src` into `dst`: every key of `src` gets the old
   * entry (zero if absent) plus the source entry; other keys keep their entry.
   */
  function Merge<K>(dst: map<K, Profile>, src: map<K, Profile>): map<K, Profile>
  {
    map k | k in dst.Keys + src.Keys :: if k in src then Add(Get(dst, k), src[k]) else dst[k]
  }

  /** Caller adjacency: function -> call chain -> edge. */
  type Callers = map<string, map<string, Profile>>

  /** The edges of `f`, or none when `f` is absent. */
  function EdgesOf(c: Callers, f: string): map<string, Profile>
  {
    if f in c then c[f] else map[]
  }

  /** Merging caller adjacencies: per function, the edge maps are merged. */
  function MergeCallers(dst: Callers, src: Callers): Callers
  {
    map f | f in dst.Keys + src.Keys :: if f in src then Merge(EdgesOf(dst, f), src[f]) else dst[f]
  }

  /** Every chain of the adjacency that is a top-level call site. */
  function TopLevelChains(c: Callers): set<string>
  {
    set f, chain | f in c && chain in c[f] && IsTopLevel(chain) :: chain
  }

  /** The top-level chains among the edges of one function. */
  function TopLevelOf(edges: map<string, Profile>): set<string>
  {
    set chain | chain in edges && IsTopLevel(chain)
  }

  /** Taking one more function `f` into account adds exactly its top-level chains. */
  lemma TopLevelChainsGrow(c: Callers, rest: set<string>, f: string)
    requires f in rest && f in c
    ensures TopLevelChains(c - (rest - {f})) == TopLevelChains(c - rest) + TopLevelOf(c[f])
  {
    var big, small := c - (rest - {f}), c - rest;
    forall chain | chain in TopLevelChains(big)
      ensures chain in TopLevelChains(small) + TopLevelOf(c[f])
    {
      var g :| g in big && chain in big[g] && IsTopLevel(chain);
      if g != f {
        assert g in small && chain in small[g];
      }
    }
    forall chain | chain in TopLevelChains(small)
      ensures chain in TopLevelChains(big)
    {
      var g :| g in small && chain in small[g] && IsTopLevel(chain);
      assert g in big && chain in big[g];
    }
    forall chain | chain in TopLevelOf(c[f])
      ensures chain in TopLevelChains(big)
    {
      assert f in big && chain in big[f];
    }
  }

  /** The invariant the data model states for counts. */
  predicate CountsOrdered(p: Profile)
  {
    p.counts >= p.countsNonrec >= 0
  }

  lemma MergeResult<K>(dst: map<K, Profile>, src: map<K, Profile>, k: K)
    ensures k in Merge(dst, src) <==> k in dst || k in src
    ensures Get(Merge(dst, src), k) == Add(Get(dst, k), Get(src, k))
  {
  }

  /** Merging nothing, or merging into nothing, leaves the other side unchanged. */
  lemma MergeIdentity<K>(m: map<K, Profile>)
    ensures Merge(m, map[]) == m
    ensures Merge(map[], m) == m
  {
    assert forall k | k in m :: Add(Zero, m[k]) == m[k];
  }

  /** Two merges into the same destination give the same result in either order. */
  lemma {:induction false} MergeOrderIndependent<K>(a: map<K, Profile>, b: map<K, Profile>, c: map<K, Profile>)
    ensures Merge(Merge(a, b), c) == Merge(Merge(a, c), b)
  {
    var l, r := Merge(Merge(a, b), c), Merge(Merge(a, c), b);
    forall k | k in l
      ensures k in r && l[k] == r[k]
    {
      MergeResult(a, b, k); MergeResult(Merge(a, b), c, k);
      MergeResult(a, c, k); MergeResult(Merge(a, c), b, k);
    }
    assert l.Keys == r.Keys;
  }

  /** Merging b then c is the same as merging the merge of b and c. */
  lemma {:induction false} MergeAssociative<K>(a: map<K, Profile>, b: map<K, Profile>, c: map<K, Profile>)
    ensures Merge(Merge(a, b), c) == Merge(a, Merge(b, c))
  {
    var l, r := Merge(Merge(a, b), c), Merge(a, Merge(b, c));
    forall k | k in l
      ensures k in r && l[k] == r[k]
    {
      MergeResult(a, b, k); MergeResult(Merge(a, b), c, k);
      MergeResult(b, c, k); MergeResult(a, Merge(b, c), k);
    }
    assert l.Keys == r.Keys;
  }

  /** Merging keeps `counts >= countsNonrec >= 0` when both sides have it. */
  lemma MergeKeepsCountsOrdered<K>(a: map<K, Profile>, b: map<K, Profile>)
    requires forall k | k in a :: CountsOrdered(a[k])
    requires forall k | k in b :: CountsOrdered(b[k])
    ensures forall k | k in Merge(a, b) :: CountsOrdered(Merge(a, b)[k])
  {
  }

  /**
   * Merging keeps every profiled function covered by the caller adjacency
   * when both sides were covered, so `sub_calls` stays defined after `_add_stat`.
   */
  lemma MergeKeepsCover(p1: map<string, Profile>, c1: Callers, p2: map<string, Profile>, c2: Callers)
    requires p1.Keys <= c1.Keys && p2.Keys <= c2.Keys
    ensures Merge(p1, p2).Keys <= MergeCallers(c1, c2).Keys
  {
  }

  lemma MergeCallersResult(dst: Callers, src: Callers, f: string)
    ensures f in MergeCallers(dst, src) <==> f in dst || f in src
    ensures EdgesOf(MergeCallers(dst, src), f) == Merge(EdgesOf(dst, f), EdgesOf(src, f))
  {
    if f !in src {
      MergeIdentity(EdgesOf(dst, f));
    }
  }

  lemma {:induction false} MergeCallersOrderIndependent(a: Callers, b: Callers, c: Callers)
    ensures MergeCallers(MergeCallers(a, b), c) == MergeCallers(MergeCallers(a, c), b)
  {
    var l, r := MergeCallers(MergeCallers(a, b), c), MergeCallers(MergeCallers(a, c), b);
    forall f
      ensures (f in l <==> f in r) && EdgesOf(l, f) == EdgesOf(r, f)
    {
      MergeCallersResult(a, b, f); MergeCallersResult(MergeCallers(a, b), c, f);
      MergeCallersResult(a, c, f); MergeCallersResult(MergeCallers(a, c), b, f);
      MergeOrderIndependent(EdgesOf(a, f), EdgesOf(b, f), EdgesOf(c, f));
    }
    EdgesAgree(l, r);
  }

  lemma {:induction false} MergeCallersAssociative(a: Callers, b: Callers, c: Callers)
    ensures MergeCallers(MergeCallers(a, b), c) == MergeCallers(a, MergeCallers(b, c))
  {
    var l, r := MergeCallers(MergeCallers(a, b), c), MergeCallers(a, MergeCallers(b, c));
    forall f
      ensures (f in l <==> f in r) && EdgesOf(l, f) == EdgesOf(r, f)
    {
      MergeCallersResult(a, b, f); MergeCallersResult(MergeCallers(a, b), c, f);
      MergeCallersResult(b, c, f); MergeCallersResult(a, MergeCallers(b, c), f);
      MergeAssociative(EdgesOf(a, f), EdgesOf(b, f), EdgesOf(c, f));
    }
    EdgesAgree(l, r);
  }

  /** Two adjacencies with the same functions and the same edges everywhere are equal. */
  lemma EdgesAgree(l: Callers, r: Callers)
    requires forall f :: (f in l <==> f in r) && EdgesOf(l, f) == EdgesOf(r, f)
    ensures l == r
  {
    forall f | f in l
      ensures l[f] == r[f]
    {
      assert EdgesOf(l, f) == EdgesOf(r, f);
    }
  }

  lemma MergeStep<K>(dst: map<K, Profile>, src: map<K, Profile>, rest: set<K>, k: K)
    requires k in rest && k in src
    ensures Get(Merge(dst, src - rest), k) == Get(dst, k)
    ensures Merge(dst, src - (rest - {k})) ==
            Merge(dst, src - rest)[k := Add(Get(Merge(dst, src - rest), k), src[k])]
  {
    var l, r := Merge(dst, src - (rest - {k})), Merge(dst, src - rest)[k := Add(Get(dst, k), src[k])];
    assert l.Keys == r.Keys;
    forall j | j in l ensures l[j] == r[j] {
    }
  }

  /** One more source function taken into a caller merge. */
  lemma MergeCallersStep(dst: Callers, src: Callers, rest: set<string>, f: string)
    requires f in rest && f in src
    ensures EdgesOf(MergeCallers(dst, src - rest), f) == EdgesOf(dst, f)
    ensures MergeCallers(dst, src - (rest - {f})) ==
            MergeCallers(dst, src - rest)[f := Merge(EdgesOf(MergeCallers(dst, src - rest), f), src[f])]
  {
    var l, r := MergeCallers(dst, src - (rest - {f})), MergeCallers(dst, src - rest)[f := Merge(EdgesOf(dst, f), src[f])];
    assert l.Keys == r.Keys;
    forall g | g in l ensures l[g] == r[g] {
    }
  }

  lemma MergeCallersIdentity(c: Callers)
    ensures MergeCallers(c, map[]) == c
  {
  }

  /** The top-level chains of a merge are those of both sides: a set union. */
  lemma {:induction false} TopLevelChainsOfMerge(a: Callers, b: Callers)
    ensures TopLevelChains(MergeCallers(a, b)) == TopLevelChains(a) + TopLevelChains(b)
  {
    var m := MergeCallers(a, b);
    forall chain | chain in TopLevelChains(m)
      ensures chain in TopLevelChains(a) + TopLevelChains(b)
    {
      var f :| f in m && chain in m[f] && IsTopLevel(chain);
      MergeCallersResult(a, b, f);
      assert chain in EdgesOf(m, f);
      if chain in EdgesOf(a, f) {
        assert chain in TopLevelChains(a);
      } else {
        assert chain in TopLevelChains(b);
      }
    }
    forall chain | chain in TopLevelChains(a) + TopLevelChains(b)
      ensures chain in TopLevelChains(m)
    {
      var f :| ((f in a && chain in a[f]) || (f in b && chain in b[f])) && IsTopLevel(chain);
      MergeCallersResult(a, b, f);
      assert chain in EdgesOf(m, f);
    }
  }

  /** Sum of a map of profiles (the `sum` builtin over the four maps). */
  ghost function SumProfiles(m: map<string, Profile>): Profile
    decreases |m|
  {
    if m == map[] then Zero
    else
      var k :| k in m;
      Add(m[k], SumProfiles(m - {k}))
  }

  /** The sum does not depend on which key is taken first. */
  lemma {:induction false} SumProfilesRemove(m: map<string, Profile>, k: string)
    requires k in m
    ensures SumProfiles(m) == Add(m[k], SumProfiles(m - {k}))
    decreases |m|
  {
    var j :| j in m && SumProfiles(m) == Add(m[j], SumProfiles(m - {j}));
    if j != k {
      var rest := m - {j} - {k};
      assert m - {k} - {j} == rest;
      SumProfilesRemove(m - {j}, k);
      SumProfilesRemove(m - {k}, j);
      assert SumProfiles(m) == Add(m[j], Add(m[k], SumProfiles(rest)));
      assert SumProfiles(m - {k}) == Add(m[j], SumProfiles(rest));
    }
  }

  /** The sum of two profiles held in a map is their field-by-field sum. */
  lemma TwoFunctionSum()
    ensures var m := map["f" := Profile(200.0, 400.0, 2, 2), "g" := Profile(300.0, 300.0, 1, 1)];
      SumProfiles(m) == Profile(500.0, 700.0, 3, 3)
  {
    var g := Profile(300.0, 300.0, 1, 1);
    var m := map["f" := Profile(200.0, 400.0, 2, 2), "g" := g];
    var rest := map["g" := g];
    assert m - {"f"} == rest;
    assert rest - {"g"} == map[];
    SumProfilesRemove(rest, "g");
    assert SumProfiles(rest) == g;
    SumProfilesRemove(m, "f");
  }

  /**
   * The dict a `method_profile` call returns, keyed 'total', 'cumulated',
   * 'counts' and 'counts_nonrec'.
   */
  function ProfileRecord(p: Profile): (r: map<string, real>)
    ensures r.Keys == {"total", "cumulated", "counts", "counts_nonrec"}
  {
    map["total" := p.total, "cumulated" := p.cumulated,
        "counts" := p.counts as real, "counts_nonrec" := p.countsNonrec as real]
  }

  /** The dict a caller edge is stored as, keyed 'cumulated', 'total', 'count' and 'count_norec'. */
  function EdgeRecord(e: Profile): (r: map<string, real>)
    ensures r.Keys == {"cumulated", "total", "count", "count_norec"}
  {
    map["cumulated" := e.cumulated, "total" := e.total,
        "count" := e.counts as real, "count_norec" := e.countsNonrec as real]
  }

  /** `src` after `_update_with_data(src, updates)`: keys of `src` only, each increased by the update. */
  function UpdatedWith(src: map<string, real>, updates: map<string, real>): map<string, real>
  {
    map k | k in src :: if k in updates then src[k] + updates[k] else src[k]
  }

  /**
   * `Stats._update_with_data`: adds every update whose key is already in
   * `src` and ignores the others. The source changes `src` in place; here
   * the updated dict is returned.
   */
  method UpdateWithData(src: map<string, real>, updates: map<string, real>) returns (r: map<string, real>)
    ensures r.Keys == src.Keys
    ensures forall k | k in src && k in updates :: r[k] == src[k] + updates[k]
    ensures forall k | k in src && k !in updates :: r[k] == src[k]
    ensures r == UpdatedWith(src, updates)
  {
    r := src;
    var todo := updates.Keys;
    while todo != {}
      invariant todo <= updates.Keys
      invariant r.Keys == src.Keys
      invariant forall k | k in src :: r[k] == if k in updates && k !in todo then src[k] + updates[k] else src[k]
      decreases todo
    {
      var key :| key in todo;
      if key in r {
        r := r[key := r[key] + updates[key]];
      }
      todo := todo - {key};
    }
  }

  /** Result of `_relativize` for one key: a finite ratio, or the +inf of a zero baseline. */
  datatype Ratio = Finite(value: real) | Inf

  /**
   * `Stats._relativize`: the ratio of each metric to its baseline; a zero
   * baseline gives `Inf`. Every key of `data` must be in `baseline` (the
   * source raises KeyError otherwise).
   */
  function Relativize<K>(data: map<K, real>, baseline: map<K, real>): (r: map<K, Ratio>)
    requires data.Keys <= baseline.Keys
    ensures r.Keys == data.Keys
    ensures forall k | k in r :: r[k] == Inf <==> baseline[k] == 0.0
    ensures forall k | k in r && r[k].Finite? :: r[k].value * baseline[k] == data[k]
  {
    map k | k in data :: if baseline[k] == 0.0 then Inf else Finite(data[k] / baseline[k])
  }
}
