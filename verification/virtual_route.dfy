/**
 Route records as the flattener sees them, and the `isVirtualRoute` classifier.

 A route record carries a path segment, an optional list of children (absent
 is different from present-but-empty) and at most one way of rendering: a
 single component, a map of named components, or a redirect. The payloads of
 those render options (components, lazy loaders, redirect targets, props)
 belong to the host router and have no behaviour here, so they are opaque tags.
 */
module VirtualRoute {

  /**
   What a record renders; `NoRender` is the render of a virtual record. The
   type also admits records the union excludes, such as a `NoRender` record
   with an absent `children` field; both predicates and the flattener treat
   those exactly as the runtime field tests would.
   */
  datatype Render = SingleView | NamedViews | Redirect | NoRender

  /** The optional `children` field: absent, or a (possibly empty) list. */
  datatype Children = Absent | Present(routes: seq<Route>)

  datatype Route = Route(path: string, children: Children, render: Render)

  /** The children of `r`, reading an absent field as the empty list. */
  function Kids(r: Route): seq<Route> {
    match r.children
    case Absent => []
    case Present(cs) => cs
  }

  /**
   The three render-related fields of a raw record, each either set (truthy)
   or unset. This is the view the classifier's code works on.
   */
  datatype RenderFields = RenderFields(component: bool, components: bool, redirect: bool)

  /**
   The record shapes of the union admit every combination of render fields
   except `component` together with `components`: a single-view record
   forbids `components`, a named-views record forbids `component`, and a
   redirect or virtual record forbids both.
   */
  predicate WellShaped(f: RenderFields) {
    !(f.component && f.components)
  }

  /** The shape a set of raw render fields belongs to. */
  function ShapeOf(f: RenderFields): Render {
    if f.component then SingleView
    else if f.components then NamedViews
    else if f.redirect then Redirect
    else NoRender
  }

  /** The raw fields that a record of each shape sets. */
  function FieldsOf(t: Render): (f: RenderFields)
    ensures WellShaped(f)
    ensures ShapeOf(f) == t
    ensures t == SingleView ==> !f.components
    ensures t == NamedViews ==> !f.component
    ensures t == Redirect ==> !f.component && !f.components
    ensures t == NoRender ==> !f.component && !f.components && !f.redirect
  {
    match t
    case SingleView => RenderFields(true, false, false)
    case NamedViews => RenderFields(false, true, false)
    case Redirect => RenderFields(false, false, true)
    case NoRender => RenderFields(false, false, false)
  }

  /**
   The classifier's literal field test, "none of component, components or
   redirect is set", agrees with the tag for every record the union admits,
   including a single-view record that also carries a redirect.
   */
  lemma NoRenderFieldsIffNoRender(f: RenderFields)
    requires WellShaped(f)
    ensures (!f.component && !f.components && !f.redirect) <==> ShapeOf(f) == NoRender
  {
  }

  /**
   The literal test of `shouldFlatRoute`, "`component` is set", agrees with
   the tag for every record the union admits, including a single-view record
   that also carries a redirect.
   */
  lemma ComponentIffSingleView(f: RenderFields)
    requires WellShaped(f)
    ensures f.component <==> ShapeOf(f) == SingleView
  {
  }

  /**
   A record is virtual when it has a non-empty path, a `children` field (an
   empty list counts) and none of the three render fields.
   */
  function IsVirtualRoute(r: Route): (b: bool)
    ensures b <==> (var f := FieldsOf(r.render);
                    && |r.path| > 0
                    && r.children.Present?
                    && !f.component && !f.components && !f.redirect)
    ensures r.path == "" ==> !b
    ensures r.children.Absent? ==> !b
    ensures r.render in {SingleView, NamedViews, Redirect} ==> !b
  {
    r.path != "" && r.children.Present? && r.render == NoRender
  }
}
