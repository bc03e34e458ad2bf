/**
 What `flatRoutes` guarantees about its output: where each input node ends up,
 that flattening is the identity exactly on forests without removable nodes
 (hence idempotent), how prefixes compose through chains, how many nodes the
 transform removes, and how its removal test relates to `isVirtualRoute`.
 */
module RouteFlattenerProperties {
  import opened VirtualRoute
  import opened RouteFlattener

  lemma EmptyForest()
    ensures FlatRoutes([]) == []
  {
  }

  lemma {:induction false} SingletonForest(r: Route)
    ensures FlatRoutes([r]) == FlatRoute(r)
  {
    assert [r][1..] == [];
  }

  lemma {:induction false} PrefixSingleton(p: string, r: Route)
    ensures ApplyPrefix(p, [r]) == [r.(path := p + "/" + r.path)]
  {
    assert [r][1..] == [];
  }

  /** Flattening `pre + [r] + post` flattens the three parts separately, in order. */
  lemma {:induction false} InPlace(pre: seq<Route>, r: Route, post: seq<Route>)
    ensures FlatRoutes(pre + [r] + post) == FlatRoutes(pre) + FlatRoute(r) + FlatRoutes(post)
  {
    FlatRoutesAppend(pre + [r], post);
    FlatRoutesAppend(pre, [r]);
    SingletonForest(r);
  }

  /** A node whose children are absent or empty stays exactly as given, at its position. */
  lemma {:induction false} ChildlessKeptInPlace(pre: seq<Route>, r: Route, post: seq<Route>)
    requires Kids(r) == []
    ensures FlatRoutes(pre + [r] + post) == FlatRoutes(pre) + [r] + FlatRoutes(post)
  {
    InPlace(pre, r, post);
  }

  /**
   A removed node does not appear; its children, prefixed with its path and
   flattened, take its position.
   */
  lemma {:induction false} DissolvedSplicedInPlace(pre: seq<Route>, r: Route, post: seq<Route>)
    requires Dissolves(r)
    ensures FlatRoutes(pre + [r] + post)
            == FlatRoutes(pre) + FlatRoutes(ApplyPrefix(r.path, Kids(r))) + FlatRoutes(post)
  {
    InPlace(pre, r, post);
  }

  /**
   A node with children that `shouldFlatRoute` rejects keeps its position,
   path and render; only its children are replaced by their flattening.
   */
  lemma {:induction false} ConcreteKeptInPlace(pre: seq<Route>, r: Route, post: seq<Route>)
    requires Kids(r) != [] && !ShouldFlatRoute(r)
    ensures FlatRoutes(pre + [r] + post)
            == FlatRoutes(pre) + [Route(r.path, Present(FlatRoutes(Kids(r))), r.render)] + FlatRoutes(post)
  {
    InPlace(pre, r, post);
  }

  /**
   Order preservation: `[x, v, y]` with `v` removed and its children `[p, q]`
   childless flattens to `[x, p', q', y]`, where `p'` and `q'` carry the
   prefixed paths.
   */
  lemma {:induction false} SpliceOrder(x: Route, v: Route, p: Route, q: Route, y: Route)
    requires Kids(x) == [] && Kids(y) == [] && Kids(p) == [] && Kids(q) == []
    requires Dissolves(v) && Kids(v) == [p, q]
    ensures FlatRoutes([x, v, y])
            == [x, p.(path := v.path + "/" + p.path), q.(path := v.path + "/" + q.path), y]
  {
    var ps := ApplyPrefix(v.path, [p, q]);
    assert ps == [p.(path := v.path + "/" + p.path), q.(path := v.path + "/" + q.path)];
    InPlace([], ps[0], [ps[1]]);
    assert [] + [ps[0]] + [ps[1]] == ps;
    SingletonForest(ps[1]);
    InPlace([x], v, [y]);
    assert [x] + [v] + [y] == [x, v, y];
    SingletonForest(x);
    SingletonForest(y);
  }

  /** A tree without removable nodes flattens to itself. */
  lemma {:induction false} CleanRouteFixed(r: Route)
    requires Clean(r)
    ensures FlatRoute(r) == [r]
    decreases Size(r), 0
  {
    match r.children
    case Absent =>
    case Present(cs) =>
      if cs != [] {
        CleanForestFixed(cs);
      }
  }

  lemma {:induction false} CleanForestFixed(f: seq<Route>)
    requires CleanForest(f)
    ensures FlatRoutes(f) == f
    decreases ForestSize(f), 1
  {
    if f != [] {
      CleanRouteFixed(f[0]);
      CleanForestFixed(f[1..]);
      assert [f[0]] + f[1..] == f;
    }
  }

  /** `flatRoutes` leaves a forest unchanged exactly when it has no removable node at any depth. */
  lemma {:induction false} IdentityIffClean(f: seq<Route>)
    ensures FlatRoutes(f) == f <==> CleanForest(f)
  {
    if CleanForest(f) {
      CleanForestFixed(f);
    }
  }

  /** Flattening twice gives the same forest as flattening once. */
  lemma {:induction false} Idempotent(f: seq<Route>)
    ensures FlatRoutes(FlatRoutes(f)) == FlatRoutes(f)
  {
    CleanForestFixed(FlatRoutes(f));
  }

  /** Prefixing twice is prefixing once with the two segments joined by a slash. */
  lemma {:induction false} PrefixesCompose(a: string, b: string, f: seq<Route>)
    ensures ApplyPrefix(a, ApplyPrefix(b, f)) == ApplyPrefix(a + "/" + b, f)
    decreases |f|
  {
    if f != [] {
      PrefixesCompose(a, b, f[1..]);
      assert ApplyPrefix(b, f)[1..] == ApplyPrefix(b, f[1..]);
      assert a + "/" + (b + "/" + f[0].path) == (a + "/" + b) + "/" + f[0].path;
    }
  }

  /**
   A removed node whose only child is again removable hands its grandchildren
   the two path segments joined: the prefixes compose outermost first.
   */
  lemma {:induction false} ChainedPrefixes(v: Route, w: Route)
    requires Dissolves(v) && Kids(v) == [w]
    requires Kids(w) != [] && w.render != SingleView
    ensures FlatRoute(v) == FlatRoutes(ApplyPrefix(v.path + "/" + w.path, Kids(w)))
  {
    var w' := w.(path := v.path + "/" + w.path);
    assert ApplyPrefix(v.path, [w]) == [w'];
    SingletonForest(w');
    assert Dissolves(w');
  }

  /**
   Virtual "a" holding virtual "b" holding a childless single-view "c"
   flattens to the single record "a/b/c".
   */
  lemma ChainExample()
    ensures var c := Route("c", Absent, SingleView);
            var b := Route("b", Present([c]), NoRender);
            var a := Route("a", Present([b]), NoRender);
            FlatRoutes([a]) == [Route("a/b/c", Absent, SingleView)]
  {
    var c := Route("c", Absent, SingleView);
    var b := Route("b", Present([c]), NoRender);
    var a := Route("a", Present([b]), NoRender);
    SingletonForest(a);
    ChainedPrefixes(a, b);
    PrefixSingleton("a" + "/" + "b", c);
    assert "a" + "/" + "b" + "/" + "c" == "a/b/c";
    var c' := Route("a/b/c", Absent, SingleView);
    SingletonForest(c');
  }

  /**
   Number of nodes `flatRoutes` removes from a forest. `prefixed` says that the
   forest's paths will first be prefixed, which makes every path non-empty.
   */
  function DissolvedIn(f: seq<Route>, prefixed: bool): nat
    decreases f, 0
  {
    if f == [] then 0 else DissolvedAt(f[0], prefixed) + DissolvedIn(f[1..], prefixed)
  }

  function DissolvedAt(r: Route, prefixed: bool): nat
    decreases r, 1
  {
    var removed := Kids(r) != [] && r.render != SingleView && (prefixed || r.path != "");
    (if removed then 1 else 0)
    + match r.children
      case Absent => 0
      case Present(cs) => DissolvedIn(cs, removed)
  }

  /**
   The number of nodes removed from a prefixed forest equals the count taken
   with every top-level path treated as non-empty.
   */
  lemma {:induction false} PrefixedDissolvedIn(p: string, f: seq<Route>)
    ensures DissolvedIn(ApplyPrefix(p, f), false) == DissolvedIn(f, true)
    decreases |f|
  {
    if f != [] {
      PrefixedDissolvedIn(p, f[1..]);
      assert ApplyPrefix(p, f)[1..] == ApplyPrefix(p, f[1..]);
    }
  }

  lemma {:induction false} RouteSizeAccount(r: Route)
    ensures ForestSize(FlatRoute(r)) + DissolvedAt(r, false) == Size(r)
    decreases Size(r), 0
  {
    match r.children
    case Absent =>
    case Present(cs) =>
      if cs == [] {
      } else if ShouldFlatRoute(r) {
        var ps := ApplyPrefix(r.path, cs);
        ForestSizeAccount(ps);
        PrefixedDissolvedIn(r.path, cs);
      } else {
        ForestSizeAccount(cs);
      }
  }

  lemma {:induction false} ForestSizeAccount(f: seq<Route>)
    ensures ForestSize(FlatRoutes(f)) + DissolvedIn(f, false) == ForestSize(f)
    decreases ForestSize(f), 1
  {
    if f != [] {
      RouteSizeAccount(f[0]);
      ForestSizeAccount(f[1..]);
      ForestSizeAppend(FlatRoute(f[0]), FlatRoutes(f[1..]));
    }
  }

  /**
   Conservation: the node count drops by exactly the number of removed nodes.
   In particular flattening never grows a forest.
   */
  lemma {:induction false} NodeCountDropsByRemoved(f: seq<Route>)
    ensures ForestSize(FlatRoutes(f)) == ForestSize(f) - DissolvedIn(f, false)
    ensures ForestSize(FlatRoutes(f)) <= ForestSize(f)
  {
    ForestSizeAccount(f);
  }

  /** Every virtual record passes `shouldFlatRoute`. */
  lemma VirtualShouldFlat(r: Route)
    requires IsVirtualRoute(r)
    ensures ShouldFlatRoute(r)
  {
  }

  /**
   `shouldFlatRoute` accepts exactly the virtual records and, beyond them, the
   named-views and redirect records that have a path and a children field.
   */
  lemma ShouldFlatIffVirtualOrNonComponent(r: Route)
    ensures ShouldFlatRoute(r)
            <==> IsVirtualRoute(r)
                 || (r.path != "" && r.children.Present? && r.render in {NamedViews, Redirect})
  {
  }

  /** A virtual record with at least one child never survives flattening. */
  lemma {:induction false} VirtualWithChildrenRemoved(r: Route)
    requires IsVirtualRoute(r) && Kids(r) != []
    ensures FlatRoutes([r]) == FlatRoutes(ApplyPrefix(r.path, Kids(r)))
    ensures !Clean(r)
  {
    SingletonForest(r);
  }

  /** A virtual record whose children list is empty is kept exactly as given. */
  lemma {:induction false} EmptyVirtualSurvives(r: Route)
    requires IsVirtualRoute(r) && Kids(r) == []
    ensures FlatRoutes([r]) == [r]
  {
    SingletonForest(r);
  }

  /**
   A named-views record is not virtual, yet `flatRoutes` removes it when it has
   a path and children: its child is hoisted with the prefixed path.
   */
  lemma {:induction false} NamedViewsRecordRemoved()
    ensures var c := Route("list", Absent, SingleView);
            var r := Route("users", Present([c]), NamedViews);
            !IsVirtualRoute(r) && FlatRoutes([r]) == [Route("users/list", Absent, SingleView)]
  {
    var c := Route("list", Absent, SingleView);
    var r := Route("users", Present([c]), NamedViews);
    SingletonForest(r);
    PrefixSingleton("users", c);
    assert "users" + "/" + "list" == "users/list";
    var c' := Route("users/list", Absent, SingleView);
    SingletonForest(c');
  }

  /**
   A child with an empty path, its own children and no `component`, under a
   removed node, becomes removable once prefixed; its children then receive a
   doubled slash.
   */
  lemma {:induction false} EmptySegmentDoubleSlash()
    ensures var c := Route("x", Absent, SingleView);
            var g := Route("", Present([c]), NoRender);
            var a := Route("a", Present([g]), NoRender);
            FlatRoutes([a]) == [Route("a//x", Absent, SingleView)]
  {
    var c := Route("x", Absent, SingleView);
    var g := Route("", Present([c]), NoRender);
    var a := Route("a", Present([g]), NoRender);
    SingletonForest(a);
    ChainedPrefixes(a, g);
    PrefixSingleton("a" + "/" + "", c);
    assert "a" + "/" + "" + "/" + "x" == "a//x";
    var c' := Route("a//x", Absent, SingleView);
    SingletonForest(c');
  }

  /**
   A child with an empty path and children that does carry a `component` is
   kept under a removed node: it only gains the trailing-slash path "a/", and
   its own children are flattened without a prefix.
   */
  lemma {:induction false} EmptySegmentWithComponentKept()
    ensures var c := Route("x", Absent, SingleView);
            var g := Route("", Present([c]), SingleView);
            var a := Route("a", Present([g]), NoRender);
            FlatRoutes([a]) == [Route("a/", Present([c]), SingleView)]
  {
    var c := Route("x", Absent, SingleView);
    var g := Route("", Present([c]), SingleView);
    var a := Route("a", Present([g]), NoRender);
    SingletonForest(a);
    PrefixSingleton("a", g);
    assert "a" + "/" + "" == "a/";
    var g' := Route("a/", Present([c]), SingleView);
    SingletonForest(g');
    SingletonForest(c);
  }
}
