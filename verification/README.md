# Route-tree flattener

A Dafny model of the core of `vue-routes-flattener`. This is a pure transform over an ordered forest of route records. It removes every record that has at least one child and that `shouldFlatRoute` accepts. These are meant to be the purely organisational ("virtual") nesting levels, but named-views and redirect records with a path and children are removed too (see the first disagreement below). Each removed record's children are spliced into its position, with the removed record's path prepended to theirs. Every record that is not removed is kept in place, with its own children flattened.

The model has three modules:

- `VirtualRoute` (`virtual_route.dfy`) holds the route record and the classifier `isVirtualRoute`.
  - A record is `Route(path, children, render)`.
  - `children` is `Absent` or `Present(routes)`, and an empty list counts as present.
  - `render` is one of four exclusive tags: `SingleView`, `NamedViews`, `Redirect`, `NoRender`.
  - `RenderFields` is the raw view of a record: whether `component`, `components` and `redirect` are set. The module relates this view to the tag. The classifier's literal field test is stated in terms of these raw fields.
- `RouteFlattener` (`flat_routes.dfy`) holds `shouldFlatRoute`, `applyPrefix` and `flatRoutes`.
  - `FlatRoutes` / `FlatRoute` are the recursive reference definition.
  - `FlattenRoutes` is the single accumulating loop of vue-routes-flattener's TypeScript `flatRoutes`. It is proved to compute `FlatRoutes`.
  - Termination uses the node count `Size` / `ForestSize`. `ApplyPrefix` is proved to preserve it, because the recursive call in the TypeScript `flatRoutes` runs on prefixed children and not on a syntactic subterm.
- `RouteFlattenerProperties` (`flat_routes_properties.dfy`) holds the properties:
  - where each kind of node ends up;
  - identity exactly on forests without removable nodes, and idempotence;
  - composition of prefixes through chains;
  - a node-count conservation law;
  - how `shouldFlatRoute` relates to `isVirtualRoute`.

Both predicates are modelled literally, and they disagree:

- `shouldFlatRoute` tests only `component`. So a named-views or redirect record that has a path and children is removed by `flatRoutes`, even though `isVirtualRoute` calls it concrete.
- `isVirtualRoute` accepts `children: []`. But `flatRoutes` tests for empty children before anything else, so such a record is kept unchanged.

The model keeps both behaviours. The lemmas `ShouldFlatIffVirtualOrNonComponent`, `NamedViewsRecordRemoved` and `EmptyVirtualSurvives` state them.

A further consequence of the literal concatenation is shown in `EmptySegmentDoubleSlash`. Under a removed node, a child with an empty path, its own children and no `component` gets a non-empty path, so it is removed in turn. Its children then receive a doubled slash (`"a//x"`). The same child with a `component` is kept with the path `"a/"` (`EmptySegmentWithComponentKept`).

The record type is wider than the source's union: it can also express, say, a `NoRender` record with an absent `children` field, which the union excludes. Both predicates and the flattener treat such a record exactly as the runtime field tests would.

Classification is a pure function of an immutable value, so "the record is unchanged by the call" holds by construction.

## Model

| member | source | states |
|---|---|---|
| VirtualRoute.FieldsOf | src/virtual-route.ts:58-95 | each record shape sets only the render fields its interface allows: single-view never sets `components`, named-views never sets `component`, redirect sets neither, virtual sets none; the fields map back to the same shape |
| VirtualRoute.NoRenderFieldsIffNoRender | src/virtual-route.ts:32-34 | for every combination of render fields the union admits, "none of component, components, redirect is set" holds exactly when the record's shape is the no-render shape |
| VirtualRoute.ComponentIffSingleView | src/flat-routes.ts:4 | for every combination of render fields the union admits, the raw test "`component` is set" holds exactly when the record's shape is single-view |
| VirtualRoute.IsVirtualRoute | src/virtual-route.ts:26-36 | a record is virtual iff its path is non-empty, its children field is present (empty counts) and none of the three render fields is set; hence false for an empty path, an absent children field, and every single-view, named-views or redirect record |
| RouteFlattener.ShouldFlatRoute | src/flat-routes.ts:3-5 | holds iff the path is non-empty, the children field is present and `component` is not set |
| RouteFlattener.ApplyPrefix | src/flat-routes.ts:7-11 | same length and order; each path becomes prefix + "/" + path with no slash normalisation; children and render unchanged; the node count is preserved |
| RouteFlattener.FlatRoutes | src/flat-routes.ts:14-35 | the output has no node, at any depth, that has a non-empty path, non-empty children and no `component` |
| RouteFlattener.FlatRoute | src/flat-routes.ts:17-31 | what one input node contributes contains no removable node at any depth |
| RouteFlattener.FlatRoutesAppend | src/flat-routes.ts:17-32 | flattening a concatenation is the concatenation of the flattenings: each node is processed independently and in order |
| RouteFlattener.FlattenRoutes | src/flat-routes.ts:14-35 | the accumulating loop, with its emptiness test before the flatten test, computes exactly the recursive splice definition |
| RouteFlattenerProperties.EmptyForest | src/flat-routes.ts:14-34 | the empty forest flattens to the empty forest |
| RouteFlattenerProperties.InPlace | src/flat-routes.ts:17-32 | in `pre + [r] + post`, the output is the flattening of `pre`, then what `r` contributes, then the flattening of `post` |
| RouteFlattenerProperties.ChildlessKeptInPlace | src/flat-routes.ts:18-19 | a node whose children are absent or empty appears exactly as given at its position, whatever its path or render |
| RouteFlattenerProperties.DissolvedSplicedInPlace | src/flat-routes.ts:21-25 | a node with children that passes `shouldFlatRoute` is replaced, at its position, by the flattening of its children prefixed with its path |
| RouteFlattenerProperties.ConcreteKeptInPlace | src/flat-routes.ts:26-30 | a node with children that fails `shouldFlatRoute` keeps its position, path and render, and its children become their flattening |
| RouteFlattenerProperties.SpliceOrder | src/flat-routes.ts:17-25 | `[X, V, Y]` with X and Y childless, V removed and its children `[P, Q]` childless, flattens to `[X, P', Q', Y]` in that order, where P' and Q' carry V's path as prefix |
| RouteFlattenerProperties.CleanRouteFixed | src/flat-routes.ts:17-31 | a tree with no removable node at any depth flattens to itself alone |
| RouteFlattenerProperties.CleanForestFixed | src/flat-routes.ts:17-32 | a forest with no removable node at any depth flattens to itself |
| RouteFlattenerProperties.IdentityIffClean | src/flat-routes.ts:14-35 | flattening leaves a forest unchanged iff it has no removable node at any depth |
| RouteFlattenerProperties.Idempotent | src/flat-routes.ts:14-35 | flattening twice equals flattening once |
| RouteFlattenerProperties.PrefixesCompose | src/flat-routes.ts:7-11 | prefixing with b then with a equals prefixing once with a + "/" + b |
| RouteFlattenerProperties.ChainedPrefixes | src/flat-routes.ts:21-25 | a removed node whose single child is removable after prefixing hands the grandchildren both segments joined, outermost first |
| RouteFlattenerProperties.ChainExample | src/flat-routes.ts:7-25 | virtual "a" over virtual "b" over childless single-view "c" flattens to the single record "a/b/c" |
| RouteFlattenerProperties.PrefixedDissolvedIn | src/flat-routes.ts:7-11 | the number of nodes removed from a prefixed forest equals the count taken with every top-level path treated as non-empty |
| RouteFlattenerProperties.RouteSizeAccount | src/flat-routes.ts:17-31 | the nodes one input tree contributes number its size minus the nodes removed from it |
| RouteFlattenerProperties.ForestSizeAccount | src/flat-routes.ts:14-35 | the output forest's node count plus the number of removed nodes equals the input's node count |
| RouteFlattenerProperties.NodeCountDropsByRemoved | src/flat-routes.ts:14-35 | the node count drops by exactly the number of removed nodes, so flattening never grows a forest |
| RouteFlattenerProperties.VirtualShouldFlat | src/flat-routes.ts:3-5 | every virtual record passes `shouldFlatRoute` |
| RouteFlattenerProperties.ShouldFlatIffVirtualOrNonComponent | src/flat-routes.ts:3-5 | `shouldFlatRoute` holds iff the record is virtual, or is a named-views or redirect record with a non-empty path and a children field |
| RouteFlattenerProperties.VirtualWithChildrenRemoved | src/flat-routes.ts:18-25 | a virtual record with at least one child is replaced by its prefixed, flattened children and is not itself clean |
| RouteFlattenerProperties.EmptyVirtualSurvives | src/flat-routes.ts:18-19 | a virtual record with an empty children list is kept exactly as given |
| RouteFlattenerProperties.NamedViewsRecordRemoved | src/flat-routes.ts:21-25 | a named-views record with a path and a child is not virtual, yet it is removed and its child hoisted as "users/list" |
| RouteFlattenerProperties.EmptySegmentDoubleSlash | src/flat-routes.ts:9 | an empty-path child with children and no render under virtual "a" becomes removable, and its child "x" ends up as "a//x" |
| RouteFlattenerProperties.EmptySegmentWithComponentKept | src/flat-routes.ts:3-9 | the same empty-path child with a `component` is kept as "a/" with its child unprefixed |

## Left out

- Render payloads are opaque tags. These are the router's component types, lazy loaders, named-view maps, redirect targets and `props`. They are foreign library types with no behaviour in this transform.
- A record may carry `redirect` together with `component` or `components`. Each tag gives one canonical field set, so such a record is represented by its `SingleView` or `NamedViews` tag. `NoRenderFieldsIffNoRender` and `ComponentIffSingleView` show that the raw field tests of both predicates classify it the same way as its tag.
- Object identity and in-place mutation are not modelled. The TypeScript `flatRoutes` and `applyPrefix` rewrite `path` and `children` on the input objects; the model builds new values. A record reachable twice (aliasing), which the TypeScript code would prefix twice, is outside the model.
- Cyclic inputs and non-termination are not modelled. A Dafny datatype value is finite, so every input terminates.
- JavaScript truthiness is reduced to "the path is empty or not". An undefined `path` and non-string values are not modelled.
- Record fields that neither predicate nor the flattener reads are not modelled.
- The type imports and type-only declarations at src/virtual-route.ts:1-11 and :38-53 carry no behaviour.
