/**
 * The call-graph treemap: a tree of method elements, one per call chain,
 * each laid out inside its parent by slice-and-dice, and the `CallGrind`
 * view that zooms into a child or back out to the parent. The tree is an
 * arena: a sequence of nodes that refer to their parent and children by
 * index. The HTML elements and their styles are not modelled.
 */
module Treemap {
  import opened Wrappers
  import opened ProfileData
  import opened CallChain
  import StatsStore

  /** `(top, left, width, height)`, in percent of the parent's box. */
  datatype Rect = Rect(top: real, left: real, width: real, height: real)

  /** The whole box: the root's rectangle and every node's initial free rectangle. */
  const FullRect := Rect(0.0, 0.0, 100.0, 100.0)

  function Area(r: Rect): real
  {
    r.width * r.height
  }

  /**
   * Why a child cannot be placed: the free rectangle has no extent along the
   * side the share is divided by (ZeroDivisionError in the source), or the
   * parent's cumulated time is zero, so the share is infinite.
   */
  datatype LayoutError = ZeroExtent | InfiniteShare

  /** The rectangle given to a child and the free rectangle left after it. */
  datatype Placement = Placement(child: Rect, free: Rect)

  /**
   * The slice-and-dice step of `add_child`: the child goes to the top-left
   * corner of the free rectangle and takes its full height when the free
   * rectangle is wider than high, its full width otherwise; its other side
   * makes its area equal to its share, and the free rectangle shrinks by it.
   */
  function Place(free: Rect, share: Ratio): (r: Result<Placement, LayoutError>)
    ensures r == Err(InfiniteShare) <==> share.Inf?
    ensures r == Err(ZeroExtent) <==>
      share.Finite? && (if free.width > free.height then free.height == 0.0 else free.width == 0.0)
    ensures r.Ok? ==> r.value.child.top == free.top && r.value.child.left == free.left
    ensures r.Ok? ==> Area(r.value.child) == share.value
    ensures r.Ok? && free.width > free.height ==>
      r.value.child.height == free.height &&
      r.value.free == Rect(free.top, free.left + r.value.child.width, free.width - r.value.child.width, free.height)
    ensures r.Ok? && free.width <= free.height ==>
      r.value.child.width == free.width &&
      r.value.free == Rect(free.top + r.value.child.height, free.left, free.width, free.height - r.value.child.height)
  {
    match share
    case Inf => Err(InfiniteShare)
    case Finite(s) =>
      if free.width > free.height then
        if free.height == 0.0 then Err(ZeroExtent)
        else
          var w := s / free.height;
          Ok(Placement(Rect(free.top, free.left, w, free.height),
                       Rect(free.top, free.left + w, free.width - w, free.height)))
      else
        if free.width == 0.0 then Err(ZeroExtent)
        else
          var h := s / free.width;
          Ok(Placement(Rect(free.top, free.left, free.width, h),
                       Rect(free.top + h, free.left, free.width, free.height - h)))
  }

  /**
   * A placement cuts the free rectangle in two: the child and the new free
   * rectangle are side by side, their areas add up to the old free area, and
   * the new free rectangle ends where the old one did.
   */
  lemma PlaceSplitsFree(free: Rect, share: Ratio)
    requires Place(free, share).Ok?
    ensures Area(Place(free, share).value.child) + Area(Place(free, share).value.free) == Area(free)
    ensures Place(free, share).value.free.top + Place(free, share).value.free.height == free.top + free.height
    ensures Place(free, share).value.free.left + Place(free, share).value.free.width == free.left + free.width
    ensures var p := Place(free, share).value;
      (p.free.left == p.child.left + p.child.width && p.free.top == p.child.top) ||
      (p.free.top == p.child.top + p.child.height && p.free.left == p.child.left)
  {
    var p := Place(free, share).value;
    if free.width > free.height {
      calc {
        Area(p.child) + Area(p.free);
        p.child.width * free.height + (free.width - p.child.width) * free.height;
        free.width * free.height;
      }
    } else {
      calc {
        Area(p.child) + Area(p.free);
        free.width * p.child.height + free.width * (free.height - p.child.height);
        free.width * free.height;
      }
    }
  }

  /**
   * The share of its parent's box a child gets: `_relativize` of the child's
   * profile against the parent's, at the 'cumulated' key.
   */
  function Share(child: Profile, parent: Profile): (r: Ratio)
    ensures r.Inf? <==> parent.cumulated == 0.0
    ensures r.Finite? ==> r.value * parent.cumulated == child.cumulated
  {
    if parent.cumulated == 0.0 then Inf else Finite(child.cumulated / parent.cumulated)
  }

  /** `Share` is `_relativize` of the two profile records, read at 'cumulated'. */
  lemma ShareIsRelativized(child: Profile, parent: Profile)
    ensures Share(child, parent) == Relativize(ProfileRecord(child), ProfileRecord(parent))["cumulated"]
  {
  }

  /**
   * A method element: its name, its call chain (`_stack_hash`), its profile,
   * its parent, its children by name together with the order they were
   * added in (a Python dict keeps insertion order), its rectangle (None
   * until its parent places it) and its free rectangle.
   */
  datatype Node = Node(name: string, chain: string, profile: Profile, parent: Option<nat>,
                       children: map<string, nat>, order: seq<string>, rect: Option<Rect>, free: Rect)

  /**
   * The functions called under `chain` with their profile restricted to it:
   * what `sub_calls_profile(chain)` returns.
   */
  function Callees(profiled: set<string>, callers: Callers, chain: string): (r: map<string, Profile>)
    ensures forall f :: f in r <==> f in profiled && f in callers && chain in callers[f]
  {
    map f | f in profiled && f in callers && chain in callers[f] :: callers[f][chain]
  }

  /** `sub_calls_profile` on a store is `Callees` of its profiled functions and its caller adjacency. */
  lemma SubCallsProfileIsCallees(stats: StatsStore.Stats, chain: string)
    requires stats.Valid() && stats.CallersCover()
    ensures stats.SubCallsProfile(chain) == Callees(stats.ProfiledMethods(), stats.callers, chain)
  {
    stats.SubCallsMeaning(chain);
  }

  /** Every chain some edge is recorded under. */
  function RecordedChains(callers: Callers): set<string>
  {
    set f, c | f in callers && c in callers[f] :: c
  }

  /** The recorded chains no shorter than `chain`: what is left to descend into below `chain`. */
  function Pending(callers: Callers, chain: string): set<string>
  {
    set c | c in RecordedChains(callers) && |c| >= |chain|
  }

  /** Descending to a callee strictly shrinks what is left: the tree is finite. */
  lemma PendingShrinks(callers: Callers, chain: string, f: string)
    requires f in callers && chain in callers[f]
    ensures Pending(callers, ChildChain(chain, f)) < Pending(callers, chain)
  {
    assert chain in Pending(callers, chain);
    assert chain !in Pending(callers, ChildChain(chain, f));
  }

  /**
   * Child `k` of node `i` is consistent with the store: it points back to
   * `i`, is named `k`, extends `i`'s chain by `k`, holds `k`'s profile under
   * `i`'s chain and was placed with an area equal to its share.
   */
  ghost predicate ChildOk(callers: Callers, a: seq<Node>, i: nat, k: string)
    requires i < |a| && k in a[i].children
  {
    var ci := a[i].children[k];
    i < ci < |a| && a[ci].parent == Some(i) && a[ci].name == k &&
    a[ci].chain == ChildChain(a[i].chain, k) &&
    k in callers && a[i].chain in callers[k] && a[ci].profile == callers[k][a[i].chain] &&
    a[ci].rect.Some? && Share(a[ci].profile, a[i].profile).Finite? &&
    Area(a[ci].rect.value) == Share(a[ci].profile, a[i].profile).value
  }

  /**
   * Node `i` has one child per callee of its chain, each consistent with the
   * store, and its children, in the order they were added, tile its box.
   */
  ghost predicate NodeOk(profiled: set<string>, callers: Callers, a: seq<Node>, i: nat)
    requires i < |a|
  {
    a[i].children.Keys == Callees(profiled, callers, a[i].chain).Keys &&
    (forall k | k in a[i].children :: ChildOk(callers, a, i, k)) &&
    Tiled(a, i)
  }

  /**
   * Every recorded edge has a non-zero cumulated time. Every node below the
   * root holds an edge as its profile, so no child's share is then infinite.
   */
  ghost predicate EdgesTimed(callers: Callers)
  {
    forall f, c | f in callers && c in callers[f] :: callers[f][c].cumulated != 0.0
  }

  /** No name occurs twice. */
  predicate NoDups(s: seq<string>)
  {
    forall p, q | 0 <= p < q < |s| :: s[p] != s[q]
  }

  /** Every name of `ks` is a child of node `i` inside the arena. */
  ghost predicate ChildrenIn(a: seq<Node>, i: nat, ks: seq<string>)
    requires i < |a|
  {
    forall k | k in ks :: k in a[i].children && a[i].children[k] < |a|
  }

  /**
   * The free rectangle of node `i` after its children `ks` were placed in
   * that order, starting from the full box; None when some child's rectangle
   * is not the slice `Place` cuts for it from the free rectangle before it.
   */
  ghost function FreeAfter(a: seq<Node>, i: nat, ks: seq<string>): Option<Rect>
    requires i < |a| && ChildrenIn(a, i, ks)
    decreases |ks|
  {
    if ks == [] then Some(FullRect)
    else
      match FreeAfter(a, i, ks[..|ks| - 1])
      case None => None
      case Some(free) =>
        var child := a[a[i].children[ks[|ks| - 1]]];
        var placed := Place(free, Share(child.profile, a[i].profile));
        if placed.Ok? && child.rect == Some(placed.value.child) then Some(placed.value.free) else None
  }

  /**
   * The children of node `i`, in the order they were added, were cut one
   * after the other from its box, and its free rectangle is what is left.
   */
  ghost predicate Tiled(a: seq<Node>, i: nat)
    requires i < |a|
  {
    NoDups(a[i].order) &&
    (forall k :: k in a[i].order <==> k in a[i].children) &&
    ChildrenIn(a, i, a[i].order) &&
    FreeAfter(a, i, a[i].order) == Some(a[i].free)
  }

  /** Sum of the areas of the children `ks` of node `i`. */
  ghost function ChildAreas(a: seq<Node>, i: nat, ks: seq<string>): real
    requires i < |a| && ChildrenIn(a, i, ks)
    decreases |ks|
  {
    if ks == [] then 0.0
    else
      var rect := a[a[i].children[ks[|ks| - 1]]].rect;
      ChildAreas(a, i, ks[..|ks| - 1]) + (if rect.Some? then Area(rect.value) else 0.0)
  }

  /** Children placed in order and the free rectangle left cover the full box's area exactly. */
  lemma {:induction false} FreeAfterCoversBox(a: seq<Node>, i: nat, ks: seq<string>)
    requires i < |a| && ChildrenIn(a, i, ks) && FreeAfter(a, i, ks).Some?
    ensures ChildAreas(a, i, ks) + Area(FreeAfter(a, i, ks).value) == Area(FullRect)
    decreases |ks|
  {
    if ks != [] {
      var front := ks[..|ks| - 1];
      FreeAfterCoversBox(a, i, front);
      var child := a[a[i].children[ks[|ks| - 1]]];
      PlaceSplitsFree(FreeAfter(a, i, front).value, Share(child.profile, a[i].profile));
    }
  }

  /** A tiled node's children and its free rectangle cover its box's area exactly. */
  lemma TiledCoversBox(a: seq<Node>, i: nat)
    requires i < |a| && Tiled(a, i)
    ensures ChildAreas(a, i, a[i].order) + Area(a[i].free) == Area(FullRect)
  {
    FreeAfterCoversBox(a, i, a[i].order);
  }

  /** Placing all but the last child succeeds when placing them all does. */
  lemma FreeAfterFront(a: seq<Node>, i: nat, ks: seq<string>)
    requires i < |a| && ChildrenIn(a, i, ks) && ks != [] && FreeAfter(a, i, ks).Some?
    ensures ChildrenIn(a, i, ks[..|ks| - 1]) && FreeAfter(a, i, ks[..|ks| - 1]).Some?
  {
  }

  /** Placing children in order succeeds for every prefix of an order that succeeds. */
  lemma {:induction false} FreeAfterPrefix(a: seq<Node>, i: nat, ks: seq<string>, n: nat)
    requires i < |a| && ChildrenIn(a, i, ks) && FreeAfter(a, i, ks).Some? && n <= |ks|
    ensures ChildrenIn(a, i, ks[..n]) && FreeAfter(a, i, ks[..n]).Some?
    decreases |ks| - n
  {
    if n < |ks| {
      FreeAfterPrefix(a, i, ks, n + 1);
      var longer := ks[..n + 1];
      FreeAfterFront(a, i, longer);
      assert longer[..|longer| - 1] == ks[..n];
    } else {
      assert ks[..n] == ks;
    }
  }

  /**
   * In a tiled node, the `n`-th child added has exactly the slice `Place`
   * cuts from the free rectangle its predecessors left.
   */
  lemma TiledPlacesInOrder(a: seq<Node>, i: nat, n: nat)
    requires i < |a| && Tiled(a, i) && n < |a[i].order|
    ensures ChildrenIn(a, i, a[i].order[..n]) && FreeAfter(a, i, a[i].order[..n]).Some?
    ensures var child := a[a[i].children[a[i].order[n]]];
      var placed := Place(FreeAfter(a, i, a[i].order[..n]).value, Share(child.profile, a[i].profile));
      placed.Ok? && child.rect == Some(placed.value.child)
  {
    var ks := a[i].order;
    FreeAfterPrefix(a, i, ks, n + 1);
    assert ks[..n + 1][..n] == ks[..n];
  }

  /** The placement of the children `ks` only reads node `i`'s profile and those children. */
  lemma {:induction false} FreeAfterFrame(a: seq<Node>, b: seq<Node>, i: nat, ks: seq<string>)
    requires i < |a| && i < |b| && ChildrenIn(a, i, ks) && b[i].profile == a[i].profile
    requires forall k | k in ks ::
      (k in b[i].children && b[i].children[k] == a[i].children[k] < |b| && b[a[i].children[k]] == a[a[i].children[k]])
    ensures ChildrenIn(b, i, ks) && FreeAfter(b, i, ks) == FreeAfter(a, i, ks)
    decreases |ks|
  {
    if ks != [] {
      FreeAfterFrame(a, b, i, ks[..|ks| - 1]);
    }
  }

  /** Node `j` is listed among its parent's children under its own name. */
  ghost predicate Registered(a: seq<Node>, j: nat)
    requires j < |a|
  {
    a[j].parent.Some? && a[j].parent.value < j &&
    a[j].name in a[a[j].parent.value].children && a[a[j].parent.value].children[a[j].name] == j
  }

  /**
   * Parent and child links agree: every child index points to a later node
   * whose parent is this one and whose name is the key; every parent index
   * points to an earlier node listing this one under its name.
   */
  ghost predicate WellLinked(a: seq<Node>)
  {
    (forall i, k | 0 <= i < |a| && k in a[i].children ::
      i < a[i].children[k] < |a| && a[a[i].children[k]].parent == Some(i) && a[a[i].children[k]].name == k) &&
    (forall j | 0 <= j < |a| && a[j].parent.Some? :: Registered(a, j))
  }

  /**
   * `add_child` on the arena: registers child `c` under its name in node
   * `p`, after the children already there when the name is new, gives it
   * the next slice of `p`'s free rectangle and shrinks that free rectangle.
   * Nothing else changes.
   */
  method AddChild(a: seq<Node>, p: nat, c: nat) returns (r: Result<seq<Node>, LayoutError>)
    requires p < c < |a|
    ensures r.Err? <==> Place(a[p].free, Share(a[c].profile, a[p].profile)).Err?
    ensures r.Err? ==> r.error == Place(a[p].free, Share(a[c].profile, a[p].profile)).error
    ensures r.Ok? ==> |r.value| == |a| && forall k | 0 <= k < |a| && k != p && k != c :: r.value[k] == a[k]
    ensures r.Ok? ==> var placed := Place(a[p].free, Share(a[c].profile, a[p].profile)).value;
      r.value[p] == a[p].(children := a[p].children[a[c].name := c],
                          order := if a[c].name in a[p].children then a[p].order else a[p].order + [a[c].name],
                          free := placed.free) &&
      r.value[c] == a[c].(rect := Some(placed.child))
  {
    // The source stores the child's width and height as the new free
    // rectangle's extent; the intended free extent is what is stored here.
    var order := if a[c].name in a[p].children then a[p].order else a[p].order + [a[c].name];
    var parent := a[p].(children := a[p].children[a[c].name := c], order := order);
    var share := Relativize(ProfileRecord(a[c].profile), ProfileRecord(parent.profile))["cumulated"];
    ShareIsRelativized(a[c].profile, parent.profile);
    var placed := Place(parent.free, share);
    if placed.Err? {
      return Err(placed.error);
    }
    var child := a[c].(rect := Some(placed.value.child));
    r := Ok(a[p := parent.(free := placed.value.free)][c := child]);
  }

  /**
   * `MethodElement(name, profile, stats, parent)`: appends the element and,
   * recursively, one element per callee of its chain, each placed by
   * `add_child` right after its own subtree is built. The new nodes follow
   * `a`, which is kept; every new node is consistent with the store, and
   * every new node but the first is registered with its parent.
   */
  method BuildNode(stats: StatsStore.Stats, a: seq<Node>, name: string, profile: Profile,
                   parent: Option<nat>, chain: string) returns (r: Result<seq<Node>, LayoutError>)
    requires stats.Valid() && stats.CallersCover()
    requires parent.Some? ==> parent.value < |a|
    decreases Pending(stats.callers, chain), 1
    ensures r.Ok? ==> |r.value| > |a| && r.value[..|a|] == a
    ensures r.Ok? ==> (r.value[|a|].name == name && r.value[|a|].chain == chain &&
                       r.value[|a|].profile == profile && r.value[|a|].parent == parent &&
                       r.value[|a|].rect == (if parent.None? then Some(FullRect) else None))
    ensures r.Ok? ==> forall i | |a| <= i < |r.value| :: NodeOk(stats.ProfiledMethods(), stats.callers, r.value, i)
    ensures r.Ok? ==> forall j | |a| < j < |r.value| :: Registered(r.value, j) && |a| <= r.value[j].parent.value
    ensures r.Err? && profile.cumulated != 0.0 && EdgesTimed(stats.callers) ==> r.error == ZeroExtent
  {
    var idx := |a|;
    var node := Node(name, chain, profile, parent, map[], [], if parent.None? then Some(FullRect) else None, FullRect);
    var b := a + [node];
    var sub := stats.SubCallsProfile(chain);
    SubCallsProfileIsCallees(stats, chain);
    var todo := sub.Keys;
    while todo != {}
      invariant todo <= sub.Keys
      invariant idx < |b| && b[..idx] == a && b[idx].profile == profile
      invariant Growing(stats.ProfiledMethods(), stats.callers, b, idx, node, sub.Keys - todo)
      decreases todo
    {
      var f :| f in todo;
      var added := AddCallee(stats, b, idx, node, f, sub[f], sub.Keys - todo);
      if added.Err? {
        return Err(added.error);
      }
      TakeOne(sub.Keys, todo, f);
      b := added.value;
      todo := todo - {f};
    }
    GrowingDone(stats.ProfiledMethods(), stats.callers, b, idx, node);
    return Ok(b);
  }

  /**
   * Node `idx` is `node` with the children `done` so far, each consistent
   * with the store; the nodes after it are consistent and registered with
   * parents at `idx` or later.
   */
  ghost predicate Growing(profiled: set<string>, callers: Callers, b: seq<Node>, idx: nat, node: Node, done: set<string>)
  {
    idx < |b| && b[idx] == node.(children := b[idx].children, order := b[idx].order, free := b[idx].free) &&
    b[idx].children.Keys == done && Tiled(b, idx) &&
    (forall k | k in b[idx].children :: ChildOk(callers, b, idx, k)) &&
    (forall i | idx < i < |b| :: NodeOk(profiled, callers, b, i)) &&
    (forall j | idx < j < |b| :: Registered(b, j) && idx <= b[j].parent.value)
  }

  /** Moving `f` from the pending set to the done set. */
  lemma TakeOne(all: set<string>, todo: set<string>, f: string)
    requires f in todo && todo <= all
    ensures (all - todo) + {f} == all - (todo - {f})
  {
  }

  /** A node whose children are all its callees is consistent itself. */
  lemma GrowingDone(profiled: set<string>, callers: Callers, b: seq<Node>, idx: nat, node: Node)
    requires Growing(profiled, callers, b, idx, node, Callees(profiled, callers, node.chain).Keys)
    ensures forall i | idx <= i < |b| :: NodeOk(profiled, callers, b, i)
  {
    assert NodeOk(profiled, callers, b, idx);
  }

  /**
   * One callee `f` of node `idx`: its subtree is built after the arena and
   * the new element is placed under `idx` by `add_child`. The facts the
   * loop of `BuildNode` keeps about the arena hold again with `f` added.
   */
  method AddCallee(stats: StatsStore.Stats, b: seq<Node>, idx: nat, ghost node: Node, f: string, profile: Profile,
                   ghost done: set<string>) returns (r: Result<seq<Node>, LayoutError>)
    requires stats.Valid() && stats.CallersCover()
    requires Growing(stats.ProfiledMethods(), stats.callers, b, idx, node, done) && f !in done
    requires f in stats.callers && b[idx].chain in stats.callers[f] && profile == stats.callers[f][b[idx].chain]
    decreases Pending(stats.callers, b[idx].chain), 0
    ensures r.Ok? ==> |r.value| > |b| && r.value[..idx] == b[..idx]
    ensures r.Ok? ==> Growing(stats.ProfiledMethods(), stats.callers, r.value, idx, node, done + {f})
    ensures r.Err? && b[idx].profile.cumulated != 0.0 && EdgesTimed(stats.callers) ==> r.error == ZeroExtent
  {
    var chain := b[idx].chain;
    PendingShrinks(stats.callers, chain, f);
    var built := BuildNode(stats, b, f, profile, Some(idx), ChildChain(chain, f));
    if built.Err? {
      return Err(built.error);
    }
    var added := AddChild(built.value, idx, |b|);
    if added.Err? {
      return Err(added.error);
    }
    AddedKeepsGrowing(stats.ProfiledMethods(), stats.callers, b, built.value, added.value, idx, node, done, f);
    return added;
  }

  /**
   * The loop step of `BuildNode` in terms of its invariant: after the subtree
   * of callee `f` is appended to `b` and placed under `idx` by `AddChild`,
   * `Growing` holds again with `f` done.
   */
  lemma AddedKeepsGrowing(profiled: set<string>, callers: Callers, b: seq<Node>, built: seq<Node>, added: seq<Node>,
                          idx: nat, node: Node, done: set<string>, f: string)
    requires idx < |b| < |built| == |added|
    requires Place(built[idx].free, Share(built[|b|].profile, built[idx].profile)).Ok?
    requires var placed := Place(built[idx].free, Share(built[|b|].profile, built[idx].profile)).value;
      added[idx] == built[idx].(children := built[idx].children[built[|b|].name := |b|],
                                order := if built[|b|].name in built[idx].children then built[idx].order
                                         else built[idx].order + [built[|b|].name],
                                free := placed.free) &&
      added[|b|] == built[|b|].(rect := Some(placed.child))
    requires Growing(profiled, callers, b, idx, node, done) && f !in done
    requires built[..|b|] == b
    requires built[|b|].name == f && built[|b|].parent == Some(idx) && built[|b|].chain == ChildChain(b[idx].chain, f)
    requires f in callers && b[idx].chain in callers[f] && built[|b|].profile == callers[f][b[idx].chain]
    requires forall i | |b| <= i < |built| :: NodeOk(profiled, callers, built, i)
    requires forall j | |b| < j < |built| :: Registered(built, j) && |b| <= built[j].parent.value
    requires forall k | 0 <= k < |built| && k != idx && k != |b| :: added[k] == built[k]
    ensures |added| > |b| && added[..idx] == b[..idx]
    ensures Growing(profiled, callers, added, idx, node, done + {f})
  {
    var c := |b|;
    assert built[idx] == b[idx];
    assert f !in b[idx].children;
    AddedChildKeepsTree(profiled, callers, b, built, added, idx, c, f);
  }

  /**
   * The loop step of `BuildNode`: after the subtree of callee `f` is appended
   * to `b` and placed under `idx`, the loop's facts about `b` hold again with
   * `f` added.
   */
  lemma AddedChildKeepsTree(profiled: set<string>, callers: Callers, b: seq<Node>, built: seq<Node>,
                            added: seq<Node>, idx: nat, c: nat, f: string)
    requires idx < |b| == c < |built| && built[..c] == b
    requires built[c].name == f && built[c].parent == Some(idx) && f !in b[idx].children
    requires f in callers && b[idx].chain in callers[f] && built[c].profile == callers[f][b[idx].chain]
    requires built[c].chain == ChildChain(b[idx].chain, f)
    requires forall i | c <= i < |built| :: NodeOk(profiled, callers, built, i)
    requires forall j | c < j < |built| :: Registered(built, j) && c <= built[j].parent.value
    requires forall k | k in b[idx].children :: ChildOk(callers, b, idx, k)
    requires forall i | idx < i < |b| :: NodeOk(profiled, callers, b, i)
    requires forall j | idx < j < |b| :: Registered(b, j) && idx <= b[j].parent.value
    requires |added| == |built| && forall k | 0 <= k < |built| && k != idx && k != c :: added[k] == built[k]
    requires var placed := Place(built[idx].free, Share(built[c].profile, built[idx].profile));
      placed.Ok? &&
      added[idx] == built[idx].(children := built[idx].children[f := c], order := built[idx].order + [f],
                                free := placed.value.free) &&
      added[c] == built[c].(rect := Some(placed.value.child))
    requires Tiled(b, idx)
    ensures added[..idx] == b[..idx]
    ensures added[idx] == b[idx].(children := b[idx].children[f := c], order := added[idx].order, free := added[idx].free)
    ensures Tiled(added, idx)
    ensures forall k | k in added[idx].children :: ChildOk(callers, added, idx, k)
    ensures forall i | idx < i < |added| :: NodeOk(profiled, callers, added, i)
    ensures forall j | idx < j < |added| :: Registered(added, j) && idx <= added[j].parent.value
  {
    assert added[..idx] == b[..idx] by {
      forall k | 0 <= k < idx ensures added[k] == b[k] {
        assert built[k] == b[k];
      }
    }
    assert built[idx] == b[idx];
    forall k | k in added[idx].children ensures ChildOk(callers, added, idx, k) {
      if k == f {
        NewChildOk(callers, built, added, idx, c, f);
      } else {
        var ci := b[idx].children[k];
        assert added[idx].children[k] == ci;
        assert ChildOk(callers, b, idx, k);
        assert added[ci] == b[ci];
      }
    }
    AddedKeepsNodes(profiled, callers, b, built, added, idx, c);
    AddedKeepsRegistered(b, built, added, idx, c, f);
    AddedKeepsTiled(callers, b, built, added, idx, c, f);
  }

  /** The free rectangle of `idx` is what its children, the new one `f` last, leave of the box. */
  lemma AddedKeepsTiled(callers: Callers, b: seq<Node>, built: seq<Node>, added: seq<Node>, idx: nat, c: nat, f: string)
    requires idx < |b| == c < |built| && built[..c] == b
    requires built[c].name == f && f !in b[idx].children
    requires forall k | k in b[idx].children :: ChildOk(callers, b, idx, k)
    requires Tiled(b, idx)
    requires |added| == |built| && forall k | 0 <= k < |built| && k != idx && k != c :: added[k] == built[k]
    requires var placed := Place(built[idx].free, Share(built[c].profile, built[idx].profile));
      placed.Ok? &&
      added[idx] == built[idx].(children := built[idx].children[f := c], order := built[idx].order + [f],
                                free := placed.value.free) &&
      added[c] == built[c].(rect := Some(placed.value.child))
    ensures Tiled(added, idx)
  {
    assert built[idx] == b[idx];
    var ks := b[idx].order;
    var ks2 := ks + [f];
    assert ks2[..|ks2| - 1] == ks;
    forall k | k in ks
      ensures k in added[idx].children && added[idx].children[k] == b[idx].children[k] < |added| &&
              added[b[idx].children[k]] == b[b[idx].children[k]]
    {
      assert ChildOk(callers, b, idx, k);
    }
    FreeAfterFrame(b, added, idx, ks);
  }

  /** The nodes after `idx` stay consistent when the subtree of `c` is appended and placed. */
  lemma AddedKeepsNodes(profiled: set<string>, callers: Callers, b: seq<Node>, built: seq<Node>,
                        added: seq<Node>, idx: nat, c: nat)
    requires idx < |b| == c < |built| && built[..c] == b
    requires forall i | c <= i < |built| :: NodeOk(profiled, callers, built, i)
    requires forall i | idx < i < |b| :: NodeOk(profiled, callers, b, i)
    requires |added| == |built| && forall k | 0 <= k < |built| && k != idx && k != c :: added[k] == built[k]
    requires added[c] == built[c].(rect := added[c].rect)
    ensures forall i | idx < i < |added| :: NodeOk(profiled, callers, added, i)
  {
    forall i | idx < i < |added| ensures NodeOk(profiled, callers, added, i) {
      if i < c {
        assert built[i] == b[i];
        NodeFrame(profiled, callers, b, added, i);
      } else {
        NodeFrame(profiled, callers, built, added, i);
      }
    }
  }

  /** The nodes after `idx` stay registered when child `c`, named `f`, is registered under `idx`. */
  lemma AddedKeepsRegistered(b: seq<Node>, built: seq<Node>, added: seq<Node>, idx: nat, c: nat, f: string)
    requires idx < |b| == c < |built| && built[..c] == b
    requires built[c].name == f && built[c].parent == Some(idx) && f !in b[idx].children
    requires forall j | c < j < |built| :: Registered(built, j) && c <= built[j].parent.value
    requires forall j | idx < j < |b| :: Registered(b, j) && idx <= b[j].parent.value
    requires |added| == |built| && forall k | 0 <= k < |built| && k != idx && k != c :: added[k] == built[k]
    requires added[idx].children == built[idx].children[f := c]
    requires added[c] == built[c].(rect := added[c].rect)
    ensures forall j | idx < j < |added| :: Registered(added, j) && idx <= added[j].parent.value
  {
    assert built[idx] == b[idx];
    forall j | idx < j < |added| ensures Registered(added, j) && idx <= added[j].parent.value {
      if j < c {
        assert added[j] == built[j] == b[j];
        assert Registered(b, j);
        var q := b[j].parent.value;
        if q == idx {
          assert b[j].name != f;
        } else {
          assert added[q] == b[q];
        }
      } else if j > c {
        assert Registered(built, j);
        var q := built[j].parent.value;
        assert added[q].children == built[q].children;
      }
    }
  }

  /** The child just placed under `idx` is consistent with the store. */
  lemma NewChildOk(callers: Callers, built: seq<Node>, added: seq<Node>, idx: nat, c: nat, f: string)
    requires idx < c < |built| == |added|
    requires built[c].name == f && built[c].parent == Some(idx)
    requires f in callers && built[idx].chain in callers[f] && built[c].profile == callers[f][built[idx].chain]
    requires built[c].chain == ChildChain(built[idx].chain, f)
    requires var placed := Place(built[idx].free, Share(built[c].profile, built[idx].profile));
      placed.Ok? &&
      added[idx] == built[idx].(children := built[idx].children[f := c], order := added[idx].order,
                                free := placed.value.free) &&
      added[c] == built[c].(rect := Some(placed.value.child))
    ensures f in added[idx].children && ChildOk(callers, added, idx, f)
  {
  }

  /**
   * A node stays consistent when the arena changes only before it and in the
   * rectangle of nodes that are not its children.
   */
  lemma NodeFrame(profiled: set<string>, callers: Callers, a: seq<Node>, b: seq<Node>, i: nat)
    requires i < |a| <= |b| && NodeOk(profiled, callers, a, i)
    requires forall k | i < k < |a| :: b[k] == a[k]
    requires b[i].children == a[i].children && b[i].chain == a[i].chain && b[i].profile == a[i].profile
    requires b[i].order == a[i].order && b[i].free == a[i].free
    ensures NodeOk(profiled, callers, b, i)
  {
    forall k | k in b[i].children ensures ChildOk(callers, b, i, k) {
      assert ChildOk(callers, a, i, k);
    }
    FreeAfterFrame(a, b, i, a[i].order);
  }

  /** A tree built from index 0 is well linked: children and parents point at each other. */
  lemma BuiltTreeWellLinked(profiled: set<string>, callers: Callers, a: seq<Node>)
    requires |a| > 0 && a[0].parent.None?
    requires forall i | 0 <= i < |a| :: NodeOk(profiled, callers, a, i)
    requires forall j | 0 < j < |a| :: Registered(a, j) && 0 <= a[j].parent.value
    ensures WellLinked(a)
  {
    forall i, k | 0 <= i < |a| && k in a[i].children
      ensures i < a[i].children[k] < |a| && a[a[i].children[k]].parent == Some(i) && a[a[i].children[k]].name == k
    {
      assert NodeOk(profiled, callers, a, i);
      assert ChildOk(callers, a, i, k);
    }
  }

  /** The element `zoom_in(name)` moves to from `z`: its child `name`, or `z` itself when there is none. */
  function ZoomInTarget(a: seq<Node>, z: nat, name: string): (r: nat)
    requires WellLinked(a) && z < |a|
    ensures r < |a|
    ensures name !in a[z].children ==> r == z
    ensures name in a[z].children ==> a[r].parent == Some(z) && a[r].name == name
  {
    if name in a[z].children then a[z].children[name] else z
  }

  /** The element `zoom_out()` moves to from `z`: its parent, or `z` itself at the root. */
  function ZoomOutTarget(a: seq<Node>, z: nat): (r: nat)
    requires WellLinked(a) && z < |a|
    ensures r < |a|
    ensures a[z].parent.None? ==> r == z
    ensures a[z].parent.Some? ==> a[z].name in a[r].children && a[r].children[a[z].name] == z
  {
    if a[z].parent.Some? then a[z].parent.value else z
  }

  /** Zooming into a child and back out returns to where the view was. */
  lemma ZoomInThenOut(a: seq<Node>, z: nat, name: string)
    requires WellLinked(a) && z < |a| && name in a[z].children
    ensures ZoomOutTarget(a, ZoomInTarget(a, z, name)) == z
  {
  }

  /** Zooming out of a non-root element and back into it by name returns to it. */
  lemma ZoomOutThenIn(a: seq<Node>, z: nat)
    requires WellLinked(a) && z < |a| && a[z].parent.Some?
    ensures ZoomInTarget(a, ZoomOutTarget(a, z), a[z].name) == z
  {
  }

  /**
   * The treemap view: the arena of elements, the root element and the
   * element currently zoomed into; no root and no zoomed element before data
   * is loaded.
   */
  class CallGrind {
    var nodes: seq<Node>
    var root: Option<nat>
    var zoomed: Option<nat>

    /** The arena is well linked and the root and zoomed elements are in it, the root without parent. */
    ghost predicate Valid()
      reads this
    {
      WellLinked(nodes) &&
      (root.Some? <==> zoomed.Some?) &&
      (root.Some? ==> root.value < |nodes| && zoomed.value < |nodes| && nodes[root.value].parent.None?)
    }

    constructor ()
      ensures Valid() && nodes == [] && root.None? && zoomed.None?
    {
      nodes := [];
      root := None;
      zoomed := None;
    }

    /**
     * `load_data(stats)`: builds the tree from an element named "Top" that
     * holds the profile of module-level code, makes it the root and zooms to
     * it. When a child cannot be laid out the view is left as it was.
     */
    method LoadData(stats: StatsStore.Stats) returns (err: Option<LayoutError>)
      requires stats.Valid() && stats.CallersCover()
      modifies this
      ensures err.Some? ==> nodes == old(nodes) && root == old(root) && zoomed == old(zoomed)
      ensures err.None? ==> Valid() && root == Some(0) && zoomed == Some(0)
      ensures err.None? ==> nodes[0].name == "Top" && nodes[0].chain == RootChain("Top") && nodes[0].rect == Some(FullRect)
      ensures err.None? ==> (nodes[0].profile.cumulated == stats.duration &&
                             nodes[0].profile.total == stats.duration - SumProfiles(stats.Profiles()).total &&
                             nodes[0].profile.counts == SumProfiles(stats.Profiles()).counts &&
                             nodes[0].profile.countsNonrec == SumProfiles(stats.Profiles()).countsNonrec)
      ensures err.None? ==> forall i | 0 <= i < |nodes| :: NodeOk(stats.ProfiledMethods(), stats.callers, nodes, i)
      ensures err.Some? && stats.duration != 0.0 && EdgesTimed(stats.callers) ==> err.value == ZeroExtent
    {
      // The source asks the store for a nonexistent `caller_data(None)`; the
      // intended call, made here, is `method_profile(None)`.
      var top := stats.TopLevelProfile();
      var built := BuildNode(stats, [], "Top", top, None, RootChain("Top"));
      if built.Err? {
        return Some(built.error);
      }
      BuiltTreeWellLinked(stats.ProfiledMethods(), stats.callers, built.value);
      nodes := built.value;
      root := Some(0);
      zoomed := Some(0);
      return None;
    }

    /** `zoom_in(name)`: moves to the zoomed element's child `name`; a no-op when there is none. */
    method ZoomIn(name: string)
      requires Valid() && zoomed.Some?
      modifies this`zoomed
      ensures Valid()
      ensures zoomed == Some(ZoomInTarget(nodes, old(zoomed).value, name))
    {
      if name !in nodes[zoomed.value].children {
        return;
      }
      zoomed := Some(nodes[zoomed.value].children[name]);
    }

    /** `zoom_out()`: moves to the zoomed element's parent; a no-op at the root. */
    method ZoomOut()
      requires Valid() && zoomed.Some?
      modifies this`zoomed
      ensures Valid()
      ensures zoomed == Some(ZoomOutTarget(nodes, old(zoomed).value))
    {
      // The source reads `.parent` where the field is `_parent` and never
      // reassigns the zoomed element; moving to the parent is the intent.
      if nodes[zoomed.value].parent.None? {
        return;
      }
      zoomed := Some(nodes[zoomed.value].parent.value);
    }
  }
}
