/**
 * The `Stats` aggregation store of the profiler: four function-keyed maps,
 * the caller adjacency, the set of top-level call locations and the cached
 * sort order; the in-place merge `_add_stat` and the queries around it.
 */
module StatsStore {
  import opened Wrappers
  import opened CallChain
  import opened ProfileData
  import Sorting
  import Report

  /** A query named a function the snapshot does not know (KeyError in the source). */
  datatype QueryError = UnknownFunction

  /** `_sorted_keys` fails on an unknown key or on a zero call count in a division. */
  datatype SortError = UnknownSortKey | DivisionByZero

  /** The sort keys other than 'standard name'. */
  const NumericSortKeys: set<string> := {"ncalls", "tottime", "percall", "cumtime", "var percall"}

  /** The profile of every function, assembled from the four function-keyed maps. */
  function Assemble(totals: map<string, real>, cumulated: map<string, real>,
                    counts: map<string, int>, countsNonrec: map<string, int>): map<string, Profile>
    requires cumulated.Keys == totals.Keys && counts.Keys == totals.Keys && countsNonrec.Keys == totals.Keys
  {
    map f | f in totals :: Profile(totals[f], cumulated[f], counts[f], countsNonrec[f])
  }

  /** Per-function quotient of a time by a call count; every count must be non-zero. */
  function PerCall(times: map<string, real>, counts: map<string, int>): (r: map<string, real>)
    requires counts.Keys <= times.Keys
    requires forall f | f in counts :: counts[f] != 0
    ensures r.Keys == counts.Keys
    ensures forall f | f in r :: r[f] * counts[f] as real == times[f]
  {
    map f | f in counts :: times[f] / counts[f] as real
  }

  class Stats {
    var nruns: int
    var duration: real
    var lineCounts: map<int, int>
    var functionTotals: map<string, real>
    var functionCumulatedTotals: map<string, real>
    var functionCounts: map<string, int>
    var functionCountsNonrec: map<string, int>
    var callers: Callers
    var topLevelCallLocations: set<string>
    var ordering: string
    var reverseOrder: bool
    /** `_sk`: the cached order of the last `sort`, if any. */
    var sortedKeys: Option<seq<string>>

    /** The four function-keyed maps share one key set. */
    ghost predicate Valid()
      reads this`functionTotals, this`functionCumulatedTotals, this`functionCounts, this`functionCountsNonrec
    {
      functionCumulatedTotals.Keys == functionTotals.Keys &&
      functionCounts.Keys == functionTotals.Keys &&
      functionCountsNonrec.Keys == functionTotals.Keys
    }

    /**
     * Every profiled function has an entry in the caller adjacency: `sub_calls`
     * indexes `callers` by every profiled function and fails otherwise.
     */
    ghost predicate CallersCover()
      reads this`functionTotals, this`callers
    {
      functionTotals.Keys <= callers.Keys
    }

    /** The derived top-level set holds exactly the top-level chains of `callers`. */
    ghost predicate TopLevelConsistent()
      reads this`topLevelCallLocations, this`callers
    {
      topLevelCallLocations == TopLevelChains(callers)
    }

    /** The four function-keyed maps viewed as one map of profiles. */
    function Profiles(): map<string, Profile>
      reads this`functionTotals, this`functionCumulatedTotals, this`functionCounts, this`functionCountsNonrec
      requires Valid()
    {
      Assemble(functionTotals, functionCumulatedTotals, functionCounts, functionCountsNonrec)
    }

    /**
     * A store built from already-typed maps (the raw engine object and the
     * JSON text are not modelled): the maps are installed as given and the
     * top-level set is derived from the caller adjacency.
     */
    constructor (nruns: int, duration: real, lineCounts: map<int, int>,
                 totals: map<string, real>, cumulated: map<string, real>,
                 counts: map<string, int>, countsNonrec: map<string, int>, callers: Callers)
      requires cumulated.Keys == totals.Keys && counts.Keys == totals.Keys && countsNonrec.Keys == totals.Keys
      ensures Valid() && TopLevelConsistent()
      ensures this.nruns == nruns && this.duration == duration && this.lineCounts == lineCounts
      ensures functionTotals == totals && functionCumulatedTotals == cumulated
      ensures functionCounts == counts && functionCountsNonrec == countsNonrec
      ensures this.callers == callers
      ensures ordering == "standard name" && !reverseOrder && sortedKeys.None?
    {
      this.nruns := nruns;
      this.duration := duration;
      this.lineCounts := lineCounts;
      functionTotals := totals;
      functionCumulatedTotals := cumulated;
      functionCounts := counts;
      functionCountsNonrec := countsNonrec;
      this.callers := callers;
      topLevelCallLocations := {};
      ordering := "standard name";
      reverseOrder := false;
      sortedKeys := None;
      new;
      UpdateTopLevelCallLocations(callers);
    }

    /** `_update_top_level_call_locations`: adds every top-level chain of `callerData`. */
    method UpdateTopLevelCallLocations(callerData: Callers)
      modifies this`topLevelCallLocations
      ensures topLevelCallLocations == old(topLevelCallLocations) + TopLevelChains(callerData)
    {
      var fs := callerData.Keys;
      assert callerData - fs == map[];
      while fs != {}
        invariant fs <= callerData.Keys
        invariant topLevelCallLocations == old(topLevelCallLocations) + TopLevelChains(callerData - fs)
        decreases fs
      {
        var f :| f in fs;
        var chains := callerData[f].Keys;
        while chains != {}
          invariant chains <= callerData[f].Keys
          invariant topLevelCallLocations ==
            old(topLevelCallLocations) + TopLevelChains(callerData - fs) + TopLevelOf(callerData[f] - chains)
          decreases chains
        {
          var chain :| chain in chains;
          if IsTopLevel(chain) {
            topLevelCallLocations := topLevelCallLocations + {chain};
          }
          chains := chains - {chain};
        }
        assert callerData[f] - chains == callerData[f];
        TopLevelChainsGrow(callerData, fs, f);
        fs := fs - {f};
      }
      assert callerData - fs == callerData;
    }

    /** `profiled_methods`: the functions that have a profile. */
    function ProfiledMethods(): (r: set<string>)
      reads this`functionTotals, this`functionCumulatedTotals, this`functionCounts, this`functionCountsNonrec
      requires Valid()
      ensures r == Profiles().Keys
    {
      functionTotals.Keys
    }

    /**
     * `method_profile_by_callchain`: for every chain that called `name`, the
     * edge accumulated from zero; UnknownFunction when `name` has no edges.
     */
    function MethodProfileByCallchain(name: string): (r: Result<map<string, Profile>, QueryError>)
      reads this`callers
      ensures r.Ok? <==> name in callers
      ensures r.Ok? ==> r.value == callers[name]
    {
      if name !in callers then Err(UnknownFunction)
      else Ok(map chain | chain in callers[name] :: Add(Zero, callers[name][chain]))
    }

    /**
     * `method_profile(name, chain)` for a named function: without a chain,
     * its four stored values; with a chain, the edge recorded under that
     * chain, or all zeros when the chain never called `name`.
     */
    function MethodProfile(name: string, chain: Option<string>): (r: Result<Profile, QueryError>)
      reads this`functionTotals, this`functionCumulatedTotals, this`functionCounts, this`functionCountsNonrec, this`callers
      requires Valid()
      ensures chain.None? ==> (r.Ok? <==> name in Profiles()) && (r.Ok? ==> r.value == Profiles()[name])
      ensures chain.Some? ==> (r.Ok? <==> name in callers)
      ensures chain.Some? && r.Ok? ==> r.value == Get(callers[name], chain.value)
      ensures r.Err? ==> r.error == UnknownFunction
    {
      match chain
      case None =>
        if name !in functionTotals then Err(UnknownFunction)
        else Ok(Profile(functionTotals[name], functionCumulatedTotals[name],
                        functionCounts[name], functionCountsNonrec[name]))
      case Some(c) =>
        match MethodProfileByCallchain(name)
        case Err(e) => Err(e)
        case Ok(byChain) => Ok(if c in byChain then Add(Zero, byChain[c]) else Zero)
    }

    /**
     * `sub_calls`: with no chain, the profiled functions called from one of the
     * recorded top-level locations; with a chain, the profiled functions that
     * have an edge under exactly that chain. A set (the source dedups).
     */
    function SubCalls(chain: Option<string>): (r: set<string>)
      reads this`functionTotals, this`functionCumulatedTotals, this`functionCounts, this`functionCountsNonrec, this`callers, this`topLevelCallLocations
      requires Valid() && CallersCover()
      ensures r <= ProfiledMethods()
    {
      match chain
      case None => set f | f in functionTotals && exists k | k in topLevelCallLocations :: k in callers[f]
      case Some(c) => set f | f in functionTotals && c in callers[f]
    }

    /**
     * What `sub_calls` under a chain means: its functions are those whose
     * profile restricted to the chain is a recorded edge; every other
     * function's restricted profile is all zeros.
     */
    lemma SubCallsMeaning(c: string)
      requires Valid() && CallersCover()
      ensures forall f | f in SubCalls(Some(c)) :: MethodProfile(f, Some(c)) == Ok(callers[f][c])
      ensures forall f | f in Profiles() && f !in SubCalls(Some(c)) :: MethodProfile(f, Some(c)) == Ok(Zero)
    {
    }

    /**
     * What `sub_calls` without a chain means: with a consistent top-level set,
     * exactly the functions called from some top-level call site.
     */
    lemma SubCallsTopLevel()
      requires Valid() && CallersCover() && TopLevelConsistent()
      ensures forall f :: f in SubCalls(None) <==>
        f in Profiles() && exists k | k in callers[f] :: IsTopLevel(k)
    {
      forall f | f in Profiles() && (exists k | k in callers[f] :: IsTopLevel(k))
        ensures f in SubCalls(None)
      {
        var k :| k in callers[f] && IsTopLevel(k);
        assert k in TopLevelChains(callers);
      }
    }

    /** `sub_calls_profile`: each callee of `chain` with its profile restricted to that chain. */
    function SubCallsProfile(chain: string): (r: map<string, Profile>)
      reads this`functionTotals, this`functionCumulatedTotals, this`functionCounts, this`functionCountsNonrec, this`callers, this`topLevelCallLocations
      requires Valid() && CallersCover()
      ensures r.Keys == SubCalls(Some(chain))
      ensures forall f | f in r :: r[f] == callers[f][chain]
    {
      map f | f in SubCalls(Some(chain)) :: MethodProfile(f, Some(chain)).value
    }

    /**
     * `method_profile(None)`: the pseudo-profile of module-level code. Its
     * self time is the duration minus the self times of all functions, its
     * cumulated time the duration, its counts the sums of all counts.
     */
    method TopLevelProfile() returns (p: Profile)
      requires Valid()
      ensures p.cumulated == duration
      ensures p.total == duration - SumProfiles(Profiles()).total
      ensures p.counts == SumProfiles(Profiles()).counts
      ensures p.countsNonrec == SumProfiles(Profiles()).countsNonrec
    {
      var sum := Zero;
      var todo := functionTotals.Keys;
      ghost var all := Profiles();
      assert all - (all.Keys - todo) == all;
      while todo != {}
        invariant todo <= all.Keys
        invariant Add(sum, SumProfiles(all - (all.Keys - todo))) == SumProfiles(all)
        decreases todo
      {
        var f :| f in todo;
        ghost var rest := all - (all.Keys - todo);
        SumProfilesRemove(rest, f);
        assert rest - {f} == all - (all.Keys - (todo - {f}));
        sum := Add(sum, Profile(functionTotals[f], functionCumulatedTotals[f],
                                functionCounts[f], functionCountsNonrec[f]));
        todo := todo - {f};
      }
      assert all - (all.Keys - todo) == map[];
      p := Profile(duration - sum.total, duration, sum.counts, sum.countsNonrec);
    }

    /**
     * The value `_sorted_keys` orders functions by for a numeric sort key:
     * call count, self time, self time per call, cumulated time, or cumulated
     * time per non-recursive call.
     */
    function NumericSortValues(key: string): (r: Result<map<string, real>, SortError>)
      reads this`functionTotals, this`functionCumulatedTotals, this`functionCounts, this`functionCountsNonrec
      requires Valid()
      ensures r.Ok? ==> r.value.Keys == ProfiledMethods()
      ensures r == Err(UnknownSortKey) <==> key !in NumericSortKeys
      ensures r == Err(DivisionByZero) <==>
        (key == "percall" && exists f | f in functionCounts :: functionCounts[f] == 0) ||
        (key == "var percall" && exists f | f in functionCountsNonrec :: functionCountsNonrec[f] == 0)
      ensures key == "ncalls" && r.Ok? ==> forall f | f in r.value :: r.value[f] == functionCounts[f] as real
      ensures key == "tottime" && r.Ok? ==> forall f | f in r.value :: r.value[f] == functionTotals[f]
      ensures key == "cumtime" && r.Ok? ==> forall f | f in r.value :: r.value[f] == functionCumulatedTotals[f]
      ensures key == "percall" && r.Ok? ==>
        forall f | f in r.value :: r.value[f] * functionCounts[f] as real == functionTotals[f]
      ensures key == "var percall" && r.Ok? ==>
        forall f | f in r.value :: r.value[f] * functionCountsNonrec[f] as real == functionCumulatedTotals[f]
    {
      if key == "ncalls" then Ok(map f | f in functionCounts :: functionCounts[f] as real)
      else if key == "tottime" then Ok(functionTotals)
      else if key == "percall" then
        if exists f | f in functionCounts :: functionCounts[f] == 0 then Err(DivisionByZero)
        else Ok(PerCall(functionTotals, functionCounts))
      else if key == "cumtime" then Ok(functionCumulatedTotals)
      else if key == "var percall" then
        if exists f | f in functionCountsNonrec :: functionCountsNonrec[f] == 0 then Err(DivisionByZero)
        else Ok(PerCall(functionCumulatedTotals, functionCountsNonrec))
      else Err(UnknownSortKey)
    }

    /**
     * `ks` is the order `sort(key)` promises: every profiled function once;
     * for 'standard name' ascending by name whatever `reverseOrder` says; for
     * a numeric key by value, largest first unless `reverseOrder` is set.
     */
    ghost predicate SortedFor(ks: seq<string>, key: string)
      reads this`functionTotals, this`functionCumulatedTotals, this`functionCounts, this`functionCountsNonrec, this`reverseOrder
      requires Valid()
    {
      Sorting.Enumerates(ks, ProfiledMethods()) &&
      if key == "standard name" then Sorting.LexSorted(ks)
      else NumericSortValues(key).Ok? && Sorting.SortedByValue(ks, NumericSortValues(key).value, !reverseOrder)
    }

    /** `_sorted_keys`: the functions in the order of the current sort key. */
    method SortedKeys() returns (r: Result<seq<string>, SortError>)
      requires Valid()
      ensures r.Ok? ==> SortedFor(r.value, ordering)
      ensures r.Err? <==> ordering != "standard name" && NumericSortValues(ordering).Err?
      ensures r.Err? ==> r.error == NumericSortValues(ordering).error
    {
      if ordering == "standard name" {
        var ks := Sorting.SortNames(functionTotals.Keys);
        return Ok(ks);
      }
      var vals := NumericSortValues(ordering);
      if vals.Err? {
        return Err(vals.error);
      }
      var ks := Sorting.SortByValue(vals.value, !reverseOrder);
      return Ok(ks);
    }

    /**
     * `sort(key)`: records the key and caches the sorted order. On an error
     * the key is recorded and the previous cached order kept.
     */
    method Sort(key: string) returns (err: Option<SortError>)
      requires Valid()
      modifies this`ordering, this`sortedKeys
      ensures ordering == key
      ensures err.None? <==> key == "standard name" || NumericSortValues(key).Ok?
      ensures err.None? ==> sortedKeys.Some? && SortedFor(sortedKeys.value, key)
      ensures err.Some? ==> sortedKeys == old(sortedKeys) && err.value == NumericSortValues(key).error
    {
      ordering := key;
      var r := SortedKeys();
      if r.Err? {
        return Some(r.error);
      }
      sortedKeys := Some(r.value);
      return None;
    }

    /** `sort()` with its default key 'standard name', which cannot fail. */
    method SortDefault()
      requires Valid()
      modifies this`ordering, this`sortedKeys
      ensures ordering == "standard name" && sortedKeys.Some?
      ensures SortedFor(sortedKeys.value, "standard name")
    {
      var err := Sort("standard name");
    }

    /**
     * The `ncalls` column of `__str__`: sorts by name when no order is cached,
     * then gives one cell per function in the cached order. A cached order
     * lists the profiled functions, as every `sort` leaves it.
     */
    method NCallsColumn() returns (r: Result<seq<Report.NCalls>, Report.ReportError>)
      requires Valid()
      requires sortedKeys.Some? ==> Sorting.Enumerates(sortedKeys.value, ProfiledMethods())
      modifies this`ordering, this`sortedKeys
      ensures sortedKeys.Some?
      ensures old(sortedKeys).Some? ==> sortedKeys == old(sortedKeys) && ordering == old(ordering)
      ensures old(sortedKeys).None? ==> ordering == "standard name" && SortedFor(sortedKeys.value, "standard name")
      ensures r.Err? <==> nruns == 0 && |sortedKeys.value| > 0
      ensures r.Ok? ==> |r.value| == |sortedKeys.value|
      ensures r.Ok? ==> forall i | 0 <= i < |r.value| ::
        sortedKeys.value[i] in functionCounts &&
        Report.NCallsCell(functionCounts[sortedKeys.value[i]], functionCountsNonrec[sortedKeys.value[i]], nruns)
        == Ok(r.value[i])
    {
      if sortedKeys.None? {
        SortDefault();
      }
      var ks := sortedKeys.value;
      assert forall k | k in ks :: k in ProfiledMethods();
      r := NCallsCells(ks, functionCounts, functionCountsNonrec, nruns);
    }

    /**
     * `_add_stat`: merges `stat` into this store in place. For every function
     * of `stat` the four values are added to the old ones (zero if absent);
     * for every caller edge of `stat` the four fields are added to the old
     * edge (zero if absent); the top-level chains of `stat` are added to the
     * top-level set. A cached sort order is recomputed with `sort()`, whose
     * default key is 'standard name'. Duration, run count, line counts and
     * the reverse flag are outside the frame, so they are not merged. A
     * top-level set that matched the caller adjacency still does, and caller
     * entries for every profiled function on both sides remain so.
     */
    method AddStat(stat: Stats)
      requires Valid() && stat.Valid()
      modifies this`functionTotals, this`functionCumulatedTotals, this`functionCounts, this`functionCountsNonrec
      modifies this`callers, this`topLevelCallLocations, this`ordering, this`sortedKeys
      ensures Valid()
      ensures Profiles() == Merge(old(Profiles()), old(stat.Profiles()))
      ensures callers == MergeCallers(old(callers), old(stat.callers))
      ensures topLevelCallLocations == old(topLevelCallLocations) + TopLevelChains(old(stat.callers))
      ensures old(sortedKeys).None? ==> sortedKeys.None? && ordering == old(ordering)
      ensures old(sortedKeys).Some? ==>
        ordering == "standard name" && sortedKeys.Some? && SortedFor(sortedKeys.value, "standard name")
      ensures old(TopLevelConsistent()) ==> TopLevelConsistent()
      ensures old(CallersCover()) && old(stat.CallersCover()) ==> CallersCover()
    {
      MergeStat(stat);
      TopLevelChainsOfMerge(old(callers), old(stat.callers));
      if old(CallersCover()) && old(stat.CallersCover()) {
        MergeKeepsCover(old(Profiles()), old(callers), old(stat.Profiles()), old(stat.callers));
      }
      if sortedKeys.Some? {
        SortDefault();
      }
    }

    /**
     * The two merge loops of `_add_stat` and its final top-level update. The
     * source re-sorts between the loops and the update; neither reads what the
     * other writes, so the update is done here, before the re-sort.
     */
    method MergeStat(stat: Stats)
      requires Valid() && stat.Valid()
      modifies this`functionTotals, this`functionCumulatedTotals, this`functionCounts, this`functionCountsNonrec
      modifies this`callers, this`topLevelCallLocations
      ensures Valid()
      ensures Profiles() == Merge(old(Profiles()), old(stat.Profiles()))
      ensures callers == MergeCallers(old(callers), old(stat.callers))
      ensures topLevelCallLocations == old(topLevelCallLocations) + TopLevelChains(old(stat.callers))
    {
      // The source reads `stat` while it writes this store; when `stat` is
      // this store each key is read before it is written, which is what
      // reading from values taken at the start gives.
      var srcCallers := stat.callers;
      var t, c, n, nr := MergeProfileMaps(functionTotals, functionCumulatedTotals, functionCounts, functionCountsNonrec,
                                          stat.functionTotals, stat.functionCumulatedTotals,
                                          stat.functionCounts, stat.functionCountsNonrec);
      var merged := MergeCallerMaps(callers, srcCallers);
      functionTotals, functionCumulatedTotals, functionCounts, functionCountsNonrec, callers := t, c, n, nr, merged;
      UpdateTopLevelCallLocations(srcCallers);
    }
  }

  /** The `ncalls` cells of the functions `ks`, in that order. */
  method NCallsCells(ks: seq<string>, counts: map<string, int>, countsNonrec: map<string, int>, nruns: int)
    returns (r: Result<seq<Report.NCalls>, Report.ReportError>)
    requires forall k | k in ks :: k in counts && k in countsNonrec
    ensures r.Err? <==> nruns == 0 && |ks| > 0
    ensures r.Ok? ==> |r.value| == |ks|
    ensures r.Ok? ==> forall i | 0 <= i < |r.value| ::
      Report.NCallsCell(counts[ks[i]], countsNonrec[ks[i]], nruns) == Ok(r.value[i])
  {
    var cells := [];
    var i := 0;
    while i < |ks|
      invariant 0 <= i <= |ks| && |cells| == i
      invariant i > 0 ==> nruns != 0
      invariant forall j | 0 <= j < i :: Report.NCallsCell(counts[ks[j]], countsNonrec[ks[j]], nruns) == Ok(cells[j])
    {
      var cell := Report.NCallsCell(counts[ks[i]], countsNonrec[ks[i]], nruns);
      if cell.Err? {
        return Err(cell.error);
      }
      cells := cells + [cell.value];
      i := i + 1;
    }
    return Ok(cells);
  }

  /**
   * Two functions with self times 200 and 300 ms, called twice and once, in a
   * 1000 ms run: module-level code spent the other 500 ms itself and made
   * the 3 calls.
   */
  method TwoFunctionTopLevel() returns (p: Profile)
    ensures p == Profile(500.0, 1000.0, 3, 3)
  {
    var s := new Stats(1, 1000.0, map[], map["f" := 200.0, "g" := 300.0], map["f" := 400.0, "g" := 300.0],
                       map["f" := 2, "g" := 1], map["f" := 2, "g" := 1], map[]);
    TwoFunctionSum();
    assert s.Profiles() == map["f" := Profile(200.0, 400.0, 2, 2), "g" := Profile(300.0, 300.0, 1, 1)];
    p := s.TopLevelProfile();
  }

  /**
   * The first loop of `_add_stat` on the four maps as values: each function
   * of the source maps is zero-initialised when absent, then its four values
   * are added in.
   */
  method MergeProfileMaps(t0: map<string, real>, c0: map<string, real>, n0: map<string, int>, nr0: map<string, int>,
                          srcTotals: map<string, real>, srcCumulated: map<string, real>,
                          srcCounts: map<string, int>, srcCountsNonrec: map<string, int>)
    returns (t: map<string, real>, c: map<string, real>, n: map<string, int>, nr: map<string, int>)
    requires c0.Keys == t0.Keys && n0.Keys == t0.Keys && nr0.Keys == t0.Keys
    requires srcCumulated.Keys == srcTotals.Keys && srcCounts.Keys == srcTotals.Keys
    requires srcCountsNonrec.Keys == srcTotals.Keys
    ensures c.Keys == t.Keys && n.Keys == t.Keys && nr.Keys == t.Keys
    ensures Assemble(t, c, n, nr)
            == Merge(Assemble(t0, c0, n0, nr0), Assemble(srcTotals, srcCumulated, srcCounts, srcCountsNonrec))
  {
    ghost var oldProfiles := Assemble(t0, c0, n0, nr0);
    ghost var srcProfiles := Assemble(srcTotals, srcCumulated, srcCounts, srcCountsNonrec);
    t, c, n, nr := t0, c0, n0, nr0;
    var todo := srcTotals.Keys;
    assert srcProfiles - todo == map[];
    MergeIdentity(oldProfiles);
    while todo != {}
      invariant todo <= srcTotals.Keys
      invariant c.Keys == t.Keys && n.Keys == t.Keys && nr.Keys == t.Keys
      invariant Assemble(t, c, n, nr) == Merge(oldProfiles, srcProfiles - todo)
      decreases todo
    {
      var f :| f in todo;
      MergeStep(oldProfiles, srcProfiles, todo, f);
      t, c, n, nr := AddProfile(t, c, n, nr, f, srcTotals[f], srcCumulated[f], srcCounts[f], srcCountsNonrec[f]);
      todo := todo - {f};
    }
    assert srcProfiles - todo == srcProfiles;
  }

  /** One step of the first loop of `_add_stat`: adds one profile into the four maps. */
  method AddProfile(t0: map<string, real>, c0: map<string, real>, n0: map<string, int>, nr0: map<string, int>,
                    f: string, total: real, cumulated: real, counts: int, countsNonrec: int)
    returns (t: map<string, real>, c: map<string, real>, n: map<string, int>, nr: map<string, int>)
    requires c0.Keys == t0.Keys && n0.Keys == t0.Keys && nr0.Keys == t0.Keys
    ensures c.Keys == t.Keys && n.Keys == t.Keys && nr.Keys == t.Keys
    ensures t.Keys == t0.Keys + {f}
    ensures Assemble(t, c, n, nr) == Assemble(t0, c0, n0, nr0)[f :=
      Add(Get(Assemble(t0, c0, n0, nr0), f), Profile(total, cumulated, counts, countsNonrec))]
  {
    ghost var p := Add(Get(Assemble(t0, c0, n0, nr0), f), Profile(total, cumulated, counts, countsNonrec));
    AssembleSet(t0, c0, n0, nr0, f, p);
    t, c, n, nr := t0, c0, n0, nr0;
    if f !in n {
      t, c, n, nr := t[f := 0.0], c[f := 0.0], n[f := 0], nr[f := 0];
    }
    t := t[f := t[f] + total];
    c := c[f := c[f] + cumulated];
    n := n[f := n[f] + counts];
    nr := nr[f := nr[f] + countsNonrec];
    assert t == t0[f := p.total] && c == c0[f := p.cumulated];
    assert n == n0[f := p.counts] && nr == nr0[f := p.countsNonrec];
  }

  /** The second loop of `_add_stat`: the caller adjacency, one function at a time. */
  method MergeCallerMaps(dst: Callers, src: Callers) returns (r: Callers)
    ensures r == MergeCallers(dst, src)
  {
    r := dst;
    var fs := src.Keys;
    assert src - fs == map[];
    MergeCallersIdentity(dst);
    while fs != {}
      invariant fs <= src.Keys
      invariant r == MergeCallers(dst, src - fs)
      decreases fs
    {
      var f :| f in fs;
      MergeCallersStep(dst, src, fs, f);
      // The source binds `sc` only when `f` is new; the evident intent,
      // modelled here, is `sc = self.callers[f]` in both cases.
      var sc := MergeEdges(EdgesOf(r, f), src[f]);
      r := r[f := sc];
      fs := fs - {f};
    }
    assert src - fs == src;
  }

  /** Writing one profile into the four maps writes it into their assembled view. */
  lemma AssembleSet(totals: map<string, real>, cumulated: map<string, real>,
                    counts: map<string, int>, countsNonrec: map<string, int>, f: string, p: Profile)
    requires cumulated.Keys == totals.Keys && counts.Keys == totals.Keys && countsNonrec.Keys == totals.Keys
    ensures Assemble(totals[f := p.total], cumulated[f := p.cumulated], counts[f := p.counts],
                     countsNonrec[f := p.countsNonrec]) == Assemble(totals, cumulated, counts, countsNonrec)[f := p]
  {
  }

  /** The inner loop of `_add_stat`: the edges of one function merged chain by chain. */
  method MergeEdges(sc: map<string, Profile>, edges: map<string, Profile>) returns (r: map<string, Profile>)
    ensures r.Keys == sc.Keys + edges.Keys
    ensures forall chain | chain in edges :: r[chain] == Add(Get(sc, chain), edges[chain])
    ensures forall chain | chain in sc && chain !in edges :: r[chain] == sc[chain]
    ensures r == Merge(sc, edges)
  {
    r := sc;
    var chains := edges.Keys;
    while chains != {}
      invariant chains <= edges.Keys
      invariant r.Keys == sc.Keys + (edges.Keys - chains)
      invariant forall chain | chain in r ::
        r[chain] == if chain in edges && chain !in chains then Add(Get(sc, chain), edges[chain]) else sc[chain]
      decreases chains
    {
      var chain :| chain in chains;
      if chain !in r {
        r := r[chain := Zero];
      }
      r := r[chain := Add(r[chain], edges[chain])];
      chains := chains - {chain};
    }
  }
}
