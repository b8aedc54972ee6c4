/**
 * Three places where the profiler's code, as written, does not do what its
 * design says. Each has a model of the code as written and a concrete input
 * on which it departs from the intended behaviour; the intended behaviour is
 * what the rest of the model implements.
 */
module Findings {
  import opened Wrappers
  import opened ProfileData
  import Treemap

  // ---------------------------------------------------------------------
  // `method_profile(name, chain)` copies the edge with `_update_with_data`
  // into a dict keyed 'counts'/'counts_nonrec', but edges are keyed
  // 'count'/'count_norec': only the two times are copied.
  // ---------------------------------------------------------------------

  /** The dict `method_profile(name, chain)` returns for a recorded edge, as written. */
  function ChainProfileAsWritten(edge: Profile): (r: map<string, real>)
    ensures r.Keys == ProfileRecord(edge).Keys
  {
    UpdatedWith(ProfileRecord(Zero), EdgeRecord(edge))
  }

  /** As written the times are copied and both counts stay zero, whatever the edge holds. */
  lemma ChainProfileDropsCounts(edge: Profile)
    ensures ChainProfileAsWritten(edge)["total"] == edge.total
    ensures ChainProfileAsWritten(edge)["cumulated"] == edge.cumulated
    ensures ChainProfileAsWritten(edge)["counts"] == 0.0
    ensures ChainProfileAsWritten(edge)["counts_nonrec"] == 0.0
  {
    var r := ChainProfileAsWritten(edge);
    assert "counts" !in EdgeRecord(edge) by {
      assert "counts" != "count" && "counts" != "count_norec";
      assert "counts" != "total" && "counts" != "cumulated";
    }
    assert "counts_nonrec" !in EdgeRecord(edge) by {
      assert "counts_nonrec" != "count" && "counts_nonrec" != "count_norec";
      assert "counts_nonrec" != "total" && "counts_nonrec" != "cumulated";
    }
    assert "total" in EdgeRecord(edge) && "cumulated" in EdgeRecord(edge);
  }

  /** An edge called 3 times, once not recursively, reads as called 0 times. */
  lemma ChainProfileCounterexample()
    ensures ChainProfileAsWritten(Profile(2.0, 5.0, 3, 1))["counts"] == 0.0
    ensures ProfileRecord(Profile(2.0, 5.0, 3, 1))["counts"] == 3.0
  {
    ChainProfileDropsCounts(Profile(2.0, 5.0, 3, 1));
  }

  // ---------------------------------------------------------------------
  // `add_child` advances the free rectangle's corner but stores the child's
  // width and height as the free rectangle's extent.
  // ---------------------------------------------------------------------

  /** The placement step of `add_child` as written. */
  function PlaceAsWritten(free: Treemap.Rect, share: Ratio): (r: Result<Treemap.Placement, Treemap.LayoutError>)
    ensures r.Ok? <==> Treemap.Place(free, share).Ok?
    ensures r.Ok? ==> r.value.child == Treemap.Place(free, share).value.child
    ensures r.Ok? ==> r.value.free.width == r.value.child.width && r.value.free.height == r.value.child.height
  {
    match Treemap.Place(free, share)
    case Err(e) => Err(e)
    case Ok(p) => Ok(Treemap.Placement(p.child, Treemap.Rect(p.free.top, p.free.left, p.child.width, p.child.height)))
  }

  /**
   * Half of the box, placed first, leaves as written a free rectangle of the
   * same size as the child (full width, 1/200 high) instead of the rest of
   * the box: the second child is squeezed into a strip that was never free.
   */
  lemma PlaceAsWrittenLosesArea()
    ensures PlaceAsWritten(Treemap.FullRect, Finite(0.5)).Ok?
    ensures PlaceAsWritten(Treemap.FullRect, Finite(0.5)).value.free == Treemap.Rect(0.005, 0.0, 100.0, 0.005)
    ensures Treemap.Place(Treemap.FullRect, Finite(0.5)).value.free == Treemap.Rect(0.005, 0.0, 100.0, 99.995)
    ensures Treemap.Area(PlaceAsWritten(Treemap.FullRect, Finite(0.5)).value.child) +
            Treemap.Area(PlaceAsWritten(Treemap.FullRect, Finite(0.5)).value.free) != Treemap.Area(Treemap.FullRect)
  {
    var p := Treemap.Place(Treemap.FullRect, Finite(0.5)).value;
    assert p.child == Treemap.Rect(0.0, 0.0, 100.0, 0.005);
  }

  // ---------------------------------------------------------------------
  // `_add_stat` binds `sc` only when the function is new to this store; for
  // a known function the edges go into whichever map `sc` was last bound to,
  // or the name is unbound.
  // ---------------------------------------------------------------------

  /** The second loop of `_add_stat` can fail on an unbound name. */
  datatype Failure = UnboundName

  /**
   * The second loop of `_add_stat` as written, over the source's functions in
   * iteration order. `sc` names the function whose edge map the local `sc`
   * is bound to, if it is bound.
   */
  function MergeCallersAsWritten(dst: Callers, src: seq<(string, map<string, Profile>)>, sc: Option<string>)
    : (r: Result<Callers, Failure>)
    requires sc.Some? ==> sc.value in dst
    ensures r.Ok? ==> dst.Keys <= r.value.Keys
    decreases |src|
  {
    if src == [] then Ok(dst)
    else
      var f := src[0].0;
      var dst1 := if f !in dst then dst[f := map[]] else dst;
      var sc1 := if f !in dst then Some(f) else sc;
      if src[0].1 == map[] then MergeCallersAsWritten(dst1, src[1..], sc1)
      else if sc1.None? then Err(UnboundName)
      else MergeCallersAsWritten(dst1[sc1.value := Merge(dst1[sc1.value], src[0].1)], src[1..], sc1)
  }

  /** The edge recorded for `f` under `chain` with profile `p`. */
  function OneEdge(f: string, chain: string, p: Profile): Callers
  {
    map[f := map[chain := p]]
  }

  /** Merging edges of an already known function as the first step fails on the unbound name. */
  lemma StaleScUnbound()
    ensures MergeCallersAsWritten(map["g" := map[]], [("g", map["c" := Profile(1.0, 1.0, 1, 1)])], None)
            == Err(UnboundName)
    ensures MergeCallers(map["g" := map[]], OneEdge("g", "c", Profile(1.0, 1.0, 1, 1)))
            == OneEdge("g", "c", Profile(1.0, 1.0, 1, 1))
  {
    var e := Profile(1.0, 1.0, 1, 1);
    assert "c" in map["c" := e];
    assert Add(Zero, e) == e;
    var merged := MergeCallers(map["g" := map[]], OneEdge("g", "c", e));
    assert merged.Keys == {"g"};
    assert merged["g"] == map["c" := e];
  }

  /** A known function without edges never reaches `sc`, so it does not fail. */
  lemma NoEdgesNoFailure()
    ensures MergeCallersAsWritten(map["g" := map[]], [("g", map[])], None) == Ok(map["g" := map[]])
  {
    var src: seq<(string, map<string, Profile>)> := [("g", map[])];
    assert src[1..] == [];
  }

  /**
   * After a new function `h`, the edges of the known function `g` go into
   * `h`'s map as written.
   */
  lemma StaleScMisfiles()
    ensures var e := Profile(1.0, 1.0, 1, 1);
      MergeCallersAsWritten(map["g" := map[]], [("h", map["c" := e]), ("g", map["d" := e])], None)
      == Ok(map["g" := map[], "h" := map["c" := e, "d" := e]])
  {
    var e := Profile(1.0, 1.0, 1, 1);
    var src := [("h", map["c" := e]), ("g", map["d" := e])];
    var step1: Callers := map["g" := map[], "h" := map["c" := e]];
    var step2: Callers := map["g" := map[], "h" := map["c" := e, "d" := e]];
    assert Add(Zero, e) == e;
    assert Merge(map[], map["c" := e]) == map["c" := e];
    assert map["g" := map[]]["h" := map[]]["h" := Merge(map[], map["c" := e])] == step1;
    assert MergeCallersAsWritten(map["g" := map[]], src, None) == MergeCallersAsWritten(step1, src[1..], Some("h"));
    assert Merge(map["c" := e], map["d" := e]) == map["c" := e, "d" := e];
    assert step1["h" := Merge(step1["h"], map["d" := e])] == step2;
    assert MergeCallersAsWritten(step1, src[1..], Some("h")) == MergeCallersAsWritten(step2, [], Some("h"));
  }

  /** On the same input the corrected merge keeps `g`'s edge under `g`. */
  lemma StaleScCorrected()
    ensures var e := Profile(1.0, 1.0, 1, 1);
      MergeCallers(map["g" := map[]], map["h" := map["c" := e], "g" := map["d" := e]])
      == map["g" := map["d" := e], "h" := map["c" := e]]
  {
    var e := Profile(1.0, 1.0, 1, 1);
    var src: Callers := map["h" := map["c" := e], "g" := map["d" := e]];
    var merged := MergeCallers(map["g" := map[]], src);
    var expected: Callers := map["g" := map["d" := e], "h" := map["c" := e]];
    assert Add(Zero, e) == e;
    assert merged.Keys == expected.Keys;
    assert merged["g"] == Merge(map[], map["d" := e]) == map["d" := e];
    assert merged["h"] == Merge(map[], map["c" := e]) == map["c" := e];
  }
}
