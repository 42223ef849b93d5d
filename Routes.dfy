/** routes.py: Route, a router-bound decorator factory over a Resource, and
    the protocol by which a handler is tagged as a view. The external router
    is modelled here as an object that accumulates registrations. */
module Routes {
  import opened Outcomes
  import opened Resources

  /** A keyword-argument value, as far as this layer looks at it. */
  datatype Value = NoneValue | PolicyValue(policy: Rfc) | StrValue(s: string) | IntValue(i: int)

  type Kwargs = map<string, Value>

  /** _pop: take `key` out of the keyword arguments and return its value.
      The mapping is a value here, so the method returns what is left. */
  method Pop(d: Kwargs, key: string) returns (val: Option<Value>, rest: Kwargs)
    ensures val.Some? <==> key in d
    ensures val.Some? ==> val.value == d[key] && rest[key := val.value] == d
    ensures key !in rest && rest.Keys == d.Keys - {key}
    ensures forall k :: k in rest ==> rest[k] == d[k]
  {
    if key in d {
      val := Some(d[key]);
      rest := d - {key};
      assert rest[key := val.value] == d;
    } else {
      val := None;
      rest := d;
    }
  }

  /** What `_make_view` attaches to a handler. */
  datatype ViewAttrs = ViewAttrs(path: string, httpMethod: string, routedefKwargs: Kwargs)

  /** The kinds of parameter `inspect` distinguishes. */
  datatype ParamKind = PositionalOnly | PositionalOrKeyword | VarPositional | KeywordOnly | VarKeyword

  datatype Param = Param(name: string, kind: ParamKind)

  /** A handler function. `params` is its signature as seen through the
      bound method (without `self`); `tag` is the view tag, absent until
      `_make_view` sets it. */
  class Handler {
    const name: string
    const params: seq<Param>
    var tag: Option<ViewAttrs>

    constructor (name: string, params: seq<Param>)
      ensures this.name == name && this.params == params && tag == None
    {
      this.name := name;
      this.params := params;
      tag := None;
    }
  }

  /** _make_view: tag the handler in place and return the same handler. */
  method MakeView(handler: Handler, attrs: ViewAttrs) returns (view: Handler)
    modifies handler
    ensures view == handler && handler.tag == Some(attrs)
    ensures IsView(view) && GetViewAttrs(view.tag) == Ok(attrs)
  {
    handler.tag := Some(attrs);
    view := handler;
  }

  /** is_view: the handler carries the view tag. */
  predicate IsView(o: Handler)
    reads o
  {
    o.tag.Some?
  }

  const NotAViewError := Error(ViewError, NotAWrappedView)

  /** get_view_attrs, given the handler's tag as read when it is called:
      the stored attributes of a view, ViewError otherwise. */
  function GetViewAttrs(tag: Option<ViewAttrs>): (r: Result<ViewAttrs>)
    ensures r.Ok? <==> tag.Some?
    ensures r.Ok? ==> tag == Some(r.value)
    ensures r.Err? ==> r.error.kind == ViewError
  {
    if tag.None? then Err(NotAViewError) else Ok(tag.value)
  }

  // ---------------------------------------------------------------------
  // The external router

  /** The request handler handed to the router: the view it calls and the
      keyword-only names it fills from the matched path. */
  datatype WrappedHandler = WrappedHandler(view: Handler, kwNames: seq<string>)

  /** One `web.route(method, path, handler, **options)` registered. */
  datatype Registration = Registration(httpMethod: string, path: string, handler: WrappedHandler, options: Kwargs)

  /** A router: the registrations made on it, in order. */
  class Router {
    var registrations: seq<Registration>

    constructor ()
      ensures registrations == []
    {
      registrations := [];
    }

    method Register(reg: Registration)
      modifies this
      ensures registrations == old(registrations) + [reg]
    {
      registrations := registrations + [reg];
    }
  }

  // ---------------------------------------------------------------------
  // Route

  /** The default name `__attrs_post_init__` gives an unnamed Route. */
  const DefaultName := "Route for laviewset.routes"

  const EmptyPathError := Error(RouteError, NotAValidPath)
  const NoResourceError := Error(AttributeError, NoneHasNoAttribute)
  const NotAResourceError := Error(TypeError, CannotSetPath)
  const NotAPolicyError := Error(ValueError, NotAValidRfc)
  const ResTypeKey := "res_type"

  /** The resource type a popped `res_type` argument stands for: absent or
      None is the default, a member or a member's value string is that
      member, anything else makes `Rfc(value)` raise ValueError. */
  function ResTypeArgument(v: Option<Value>): (r: Result<Option<Rfc>>)
    ensures r.Err? ==> r.error.kind == ValueError
    ensures r == Ok(None) <==> v.None? || v == Some(NoneValue)
    ensures r.Ok? && r.value.Some? ==> v.Some? && (v.value == PolicyValue(r.value.value) || v.value == StrValue(RfcValue(r.value.value)))
  {
    match v
    case None => Ok(None)
    case Some(NoneValue) => Ok(None)
    case Some(PolicyValue(p)) => Ok(Some(p))
    case Some(StrValue(s)) =>
      var p := RfcFromValue(s);
      if p.Some? then Ok(Some(p.value)) else Err(NotAPolicyError)
    case Some(IntValue(_)) => Err(NotAPolicyError)
  }

  /** What calling a route on a resource at `parent` computes: the view
      attributes its decorator attaches, or the error the call raises. */
  function ViewFor(parent: string, enforce: Rfc, seg: string, httpMethod: string, kw: Kwargs): Result<ViewAttrs> {
    var popped := if ResTypeKey in kw then Some(kw[ResTypeKey]) else None;
    match ResTypeArgument(popped)
    case Err(e) => Err(e)
    case Ok(resType) =>
      match LeafPath(parent, enforce, seg, resType.GetOr(Empty))
      case Err(te) => Err(Error(RouteError, IncorrectResourceType(te.msg)))
      case Ok(p) => Ok(ViewAttrs(p, httpMethod, kw - {ResTypeKey}))
  }

  /** The decorator a route call returns. */
  datatype Decorator = Decorator(attrs: ViewAttrs) {
    /** `inner`: tag the handler and hand it back unchanged otherwise. */
    method Apply(handler: Handler) returns (view: Handler)
      modifies handler
      ensures view == handler && handler.tag == Some(attrs)
    {
      view := MakeView(handler, attrs);
    }
  }

  /** A named, router-bound wrapper around a Resource. */
  class Route {
    const router: Router
    const name: string
    const isBase: bool
    var resource: Resource?

    /** `Route(router, name=…, is_base=…)`, with no resource yet. */
    constructor (router: Router, name: Option<string>, isBase: bool)
      ensures this.router == router && this.name == name.GetOr(DefaultName)
      ensures this.isBase == isBase && resource == null
    {
      this.router := router;
      this.name := name.GetOr(DefaultName);
      this.isBase := isBase;
      resource := null;
    }

    /** `str(route)`. */
    function ToString(): (s: string)
      ensures |s| == 7 + |name| && s[..7] == "Route: " && s[7..] == name
    {
      "Route: " + name
    }

    /** The `path` property: the resource's path string. */
    function Path(): (p: string)
      reads this, resource
      ensures resource == null ==> p == "None"
      ensures resource != null ==> p == resource.path
    {
      if resource == null then "None" else resource.path
    }

    /** The `path` setter: only a Resource is accepted. */
    method SetPath(p: Resource?) returns (err: Option<Error>)
      modifies this`resource
      ensures p == null ==> err == Some(NotAResourceError) && resource == old(resource)
      ensures p != null ==> err == None && resource == p
    {
      if p == null {
        return Some(NotAResourceError);
      }
      resource := p;
      return None;
    }

    /** create_base: a base route over the base resource of the policy. */
    static method CreateBase(router: Router, name: Option<string>, enforce: Option<Rfc>) returns (route: Route)
      ensures fresh(route) && route.router == router && route.isBase
      ensures route.name == name.GetOr(DefaultName)
      ensures route.resource != null && fresh(route.resource)
      ensures route.resource.enforce == enforce.GetOr(NonStrict) && route.resource.resType == Empty
      ensures route.Path() == GetBuild(route.resource.enforce)("/")
    {
      route := new Route(router, name, true);
      var base := Resource.CreateBase(enforce);
      var err := route.SetPath(base);
    }

    /** extend: a non-base child route on the same router; an empty segment
        is a RouteError. `name` absent is the "Extension of" name, an
        explicit `name=None` the default name. */
    method Extend(seg: string, name: Option<Option<string>>, enforce: Option<Rfc>) returns (r: Result<Route>)
      ensures seg == "" ==> r == Err(EmptyPathError)
      ensures seg != "" && resource == null ==> r == Err(NoResourceError)
      ensures seg != "" && resource != null ==>
        && r.Ok? && fresh(r.value) && !r.value.isBase && r.value.router == router
        && r.value.name == name.GetOr(Some("Extension of " + ToString())).GetOr(DefaultName)
        && r.value.resource != null && fresh(r.value.resource)
        && r.value.resource.enforce == enforce.GetOr(resource.enforce)
        && r.value.resource.resType == Empty
        && r.value.Path() == GetBuild(r.value.resource.enforce)(Path() + seg)
    {
      if seg == "" {
        return Err(EmptyPathError);
      }
      var child := new Route(router, name.GetOr(Some("Extension of " + ToString())), false);
      if resource == null {
        return Err(NoResourceError);
      }
      var ext := resource.Extend(seg, enforce);
      var err := child.SetPath(ext);
      return Ok(child);
    }

    /** `route(path, method, **kw)`: pops `res_type`, computes the leaf (its
        TypeError becomes a RouteError), and returns the decorator that tags
        a handler with the leaf path, the method and the remaining kwargs. */
    method Call(seg: string, httpMethod: string, kw: Kwargs) returns (r: Result<Decorator>)
      ensures resource == null ==> r == Err(NoResourceError)
      ensures resource != null ==>
        var spec := ViewFor(resource.path, resource.enforce, seg, httpMethod, kw);
        && (r.Ok? <==> spec.Ok?)
        && (r.Ok? ==> r.value.attrs == spec.value)
        && (r.Err? ==> r.error == spec.error)
    {
      var resType, rest := Pop(kw, ResTypeKey);
      if resource == null {
        return Err(NoResourceError);
      }
      var policy := ResTypeArgument(resType);
      if policy.Err? {
        return Err(policy.error);
      }
      var leaf := resource.Leaf(seg, policy.value);
      if leaf.Err? {
        return Err(Error(RouteError, IncorrectResourceType(leaf.error.msg)));
      }
      return Ok(Decorator(ViewAttrs(leaf.value.path, httpMethod, rest)));
    }
  }

  // ---------------------------------------------------------------------
  // Properties of a route call

  /** A policy's value string stands for the policy. */
  lemma PolicyStringsAccepted(p: Rfc)
    ensures ResTypeArgument(Some(StrValue(RfcValue(p)))) == Ok(Some(p))
    ensures ResTypeArgument(Some(PolicyValue(p))) == Ok(Some(p))
  {
  }

  /** A route call whose `res_type` is accepted (absent or None is the
      default `Rfc.EMPTY`) never lets a TypeError through: a rejected leaf is
      a RouteError, and it is rejected exactly as the leaf table says. On
      success the decorator carries the leaf path, the method, and every
      keyword argument except `res_type`. */
  lemma ViewForOutcome(parent: string, enforce: Rfc, seg: string, httpMethod: string, kw: Kwargs, rt: Option<Rfc>)
    requires ResTypeArgument(if ResTypeKey in kw then Some(kw[ResTypeKey]) else None) == Ok(rt)
    ensures var r := ViewFor(parent, enforce, seg, httpMethod, kw);
      var leaf := LeafPath(parent, enforce, seg, rt.GetOr(Empty));
      && (r.Err? <==> leaf.Err?)
      && (r.Err? ==> r.error.kind == RouteError && r.error.msg == IncorrectResourceType(leaf.error.msg))
      && (r.Ok? ==> r.value == ViewAttrs(leaf.value, httpMethod, kw - {ResTypeKey}))
      && (r.Ok? ==> ResTypeKey !in r.value.routedefKwargs)
  {
  }

  /** A strict route called with `res_type=Rfc.SUB` tags the handler with
      the non-strict path of the leaf, and passes the other keywords on. */
  lemma StrictSubordinateRoute(parent: string, seg: string, httpMethod: string, kw: Kwargs)
    requires ResTypeKey !in kw
    ensures ViewFor(parent, Strict, seg, httpMethod, kw[ResTypeKey := PolicyValue(Sub)])
         == Ok(ViewAttrs(NonStrictPath(parent + seg), httpMethod, kw))
  {
    var sub := kw[ResTypeKey := PolicyValue(Sub)];
    assert sub - {ResTypeKey} == kw;
    PolicyStringsAccepted(Sub);
    ViewForOutcome(parent, Strict, seg, httpMethod, sub, Some(Sub));
    StrictSubLeaf(parent, seg);
  }

  /** A strict route called with `res_type='collection'` tags the handler
      with the strict path of the leaf, trailing slash included. */
  lemma StrictCollectionRoute(parent: string, seg: string, httpMethod: string, kw: Kwargs)
    requires ResTypeKey !in kw
    ensures ViewFor(parent, Strict, seg, httpMethod, kw[ResTypeKey := StrValue(RfcValue(Col))])
         == Ok(ViewAttrs(StrictPath(parent + seg), httpMethod, kw))
  {
    var col := kw[ResTypeKey := StrValue(RfcValue(Col))];
    assert col - {ResTypeKey} == kw;
    PolicyStringsAccepted(Col);
    ViewForOutcome(parent, Strict, seg, httpMethod, col, Some(Col));
  }

  /** A strict route called without `res_type` raises a RouteError that
      carries the leaf's TypeError message. */
  lemma StrictUntypedRouteRejected(parent: string, seg: string, httpMethod: string, kw: Kwargs)
    requires ResTypeKey !in kw
    ensures ViewFor(parent, Strict, seg, httpMethod, kw)
         == Err(Error(RouteError, IncorrectResourceType(StrictNeedsType.msg)))
  {
  }
}
