/**
 The route-tree flattener: `shouldFlatRoute`, `applyPrefix` and `flatRoutes`.

 `FlatRoutes` is the recursive definition: each input node contributes, in
 order, the nodes it flattens to. `FlattenRoutes` is the same walk written as
 the accumulating loop of vue-routes-flattener's TypeScript `flatRoutes`,
 and is proved to compute `FlatRoutes`.
 The TypeScript code mutates records in place; here every rewrite builds a new value.
 */
module RouteFlattener {
  import opened VirtualRoute

  /** Number of records in a tree; the termination measure of the flattener. */
  function Size(r: Route): nat
    decreases r, 1
  {
    match r.children
    case Absent => 1
    case Present(cs) => 1 + ForestSize(cs)
  }

  function ForestSize(f: seq<Route>): nat
    decreases f, 0
  {
    if f == [] then 0 else Size(f[0]) + ForestSize(f[1..])
  }

  /** Each tree of a forest is no larger than the forest. */
  lemma {:induction false} MemberSize(f: seq<Route>, i: nat)
    requires i < |f|
    ensures Size(f[i]) <= ForestSize(f)
    decreases i
  {
    if i > 0 {
      MemberSize(f[1..], i - 1);
      assert f[1..][i - 1] == f[i];
    }
  }

  /** Sizes of concatenated forests add up. */
  lemma {:induction false} ForestSizeAppend(a: seq<Route>, b: seq<Route>)
    ensures ForestSize(a + b) == ForestSize(a) + ForestSize(b)
    decreases |a|
  {
    if a != [] {
      assert (a + b)[0] == a[0];
      assert (a + b)[1..] == a[1..] + b;
      ForestSizeAppend(a[1..], b);
    } else {
      assert a + b == b;
    }
  }

  /**
   `shouldFlatRoute`: a truthy path, a `children` field and no `component`.
   It looks at `component` only, so named-views and redirect records qualify.
   */
  function ShouldFlatRoute(r: Route): (b: bool)
    ensures b <==> |r.path| > 0 && r.children.Present? && !FieldsOf(r.render).component
  {
    r.path != "" && r.children.Present? && r.render != SingleView
  }

  /**
   `applyPrefix`: every route's path becomes `prefix + "/" + path`, with no
   normalisation of slashes; nothing else about the route changes.
   */
  function ApplyPrefix(prefix: string, routes: seq<Route>): (out: seq<Route>)
    ensures |out| == |routes|
    ensures forall i :: 0 <= i < |routes| ==>
              && out[i].path == prefix + "/" + routes[i].path
              && out[i].children == routes[i].children
              && out[i].render == routes[i].render
    ensures ForestSize(out) == ForestSize(routes)
  {
    if routes == [] then []
    else [routes[0].(path := prefix + "/" + routes[0].path)] + ApplyPrefix(prefix, routes[1..])
  }

  /**
   The nodes `flatRoutes` removes: those with at least one child for which
   `shouldFlatRoute` holds. The emptiness test comes first in the loop, so a
   node with an empty children list is never removed.
   */
  predicate Dissolves(r: Route) {
    Kids(r) != [] && ShouldFlatRoute(r)
  }

  /** No node of the tree, at any depth, is one `flatRoutes` would remove. */
  predicate Clean(r: Route)
    decreases r
  {
    && !Dissolves(r)
    && match r.children
       case Absent => true
       case Present(cs) => forall c | c in cs :: Clean(c)
  }

  predicate CleanForest(f: seq<Route>) {
    forall c | c in f :: Clean(c)
  }

  /**
   `flatRoutes`: the input nodes in order, each replaced by what it
   flattens to. The result contains no removable node at any depth.
   */
  function FlatRoutes(routes: seq<Route>): (out: seq<Route>)
    ensures CleanForest(out)
    decreases ForestSize(routes), 1
  {
    if routes == [] then []
    else FlatRoute(routes[0]) + FlatRoutes(routes[1..])
  }

  /**
   The body of the loop of `flatRoutes` for one node: a node without children
   (absent or empty) is kept as given; a node `shouldFlatRoute` accepts is
   replaced by its prefixed and flattened children; any other node is kept
   with its children flattened.
   */
  function FlatRoute(r: Route): (out: seq<Route>)
    ensures CleanForest(out)
    decreases Size(r), 0
  {
    match r.children
    case Absent => [r]
    case Present(cs) =>
      if cs == [] then [r]
      else if ShouldFlatRoute(r) then FlatRoutes(ApplyPrefix(r.path, cs))
      else [r.(children := Present(FlatRoutes(cs)))]
  }

  /** Flattening distributes over concatenation: each node is flattened on its own. */
  lemma {:induction false} FlatRoutesAppend(a: seq<Route>, b: seq<Route>)
    ensures FlatRoutes(a + b) == FlatRoutes(a) + FlatRoutes(b)
    decreases |a|
  {
    if a == [] {
      assert a + b == b;
    } else {
      assert (a + b)[0] == a[0];
      assert (a + b)[1..] == a[1..] + b;
      FlatRoutesAppend(a[1..], b);
    }
  }

  /** `flatRoutes` as the TypeScript code writes it: one pass that pushes onto an accumulator. */
  method FlattenRoutes(routes: seq<Route>) returns (out: seq<Route>)
    ensures out == FlatRoutes(routes)
    decreases ForestSize(routes)
  {
    out := [];
    for i := 0 to |routes|
      invariant out == FlatRoutes(routes[..i])
    {
      var route := routes[i];
      MemberSize(routes, i);
      if route.children.Absent? || |route.children.routes| == 0 {
        out := out + [route];
      } else if ShouldFlatRoute(route) {
        var spliced := FlattenRoutes(ApplyPrefix(route.path, route.children.routes));
        out := out + spliced;
      } else {
        var flatChildren := FlattenRoutes(route.children.routes);
        out := out + [route.(children := Present(flatChildren))];
      }
      FlatRoutesAppend(routes[..i], [route]);
      assert routes[..i + 1] == routes[..i] + [route];
    }
    assert routes[..|routes|] == routes;
  }
}
