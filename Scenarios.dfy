/** Whole-chain runs of the model, each the counterpart of a scenario the
    package's view tests describe: a base route, an extension, a decorated
    handler, and the ViewSet subclass hook. */
module Scenarios {
  import opened Outcomes
  import opened Resources
  import opened Routes
  import opened Views

  /** A field in the last segment of a normalised two-segment path is the
      path's only identifier. */
  lemma FieldLeafIdentifier(a: string, f: Field)
    requires IsSegment(a) && '{' !in a
    requires ValidField(f) && '/' !in FieldText(f)
    ensures ParseArgs(NonStrictPath("/" + a + "/" + FieldText(f))) == [f.name]
  {
    var t := FieldText(f);
    var segs := [a, t];
    assert segs[..1] == [a];
    assert [a][..0] == [];
    assert Slashed([a]) == "" + "/" + a;
    assert Slashed(segs) == Slashed([a]) + "/" + t;
    assert Slashed(segs) == "/" + a + "/" + t;
    SegmentsOfSlashed(segs);
    assert "/" + a + "/" + t == ("/" + a + "/") + (t + "");
    ParseSkipsLiteral("/" + a + "/", t + "");
    ParseField(f, "");
  }

  /** A view taking only the request, on a path without identifiers, is
      accepted with no keyword-only names. */
  lemma RequestOnlyAccepted(view: Handler)
    requires IsView(view) && ParseArgs(view.tag.value.path) == []
    requires view.params == [Param("request", PositionalOrKeyword)]
    ensures GetKwOnlyOrRaise(view, view.tag) == Ok([])
  {
    assert view.params[1..] == [];
  }

  /** A second positional parameter is rejected whatever the path. */
  lemma SecondPositionalRejected(view: Handler, p: string)
    requires view.params == [Param("request", PositionalOrKeyword), Param(p, PositionalOrKeyword)]
    ensures GetKwOnlyOrRaise(view, view.tag) == Err(PositionalArgsError)
  {
    assert view.params[1..][1..] == [];
    assert OtherParamCount(view.params[1..]) == 1;
  }

  /** A keyword-only name other than the path's identifier is rejected. */
  lemma OtherKeywordRejected(view: Handler, id: string, kw: string)
    requires IsView(view) && ParseArgs(view.tag.value.path) == [id] && id != kw
    requires view.params == [Param("request", PositionalOrKeyword), Param(kw, KeywordOnly)]
    ensures GetKwOnlyOrRaise(view, view.tag) == Err(NameMismatchError)
  {
    assert view.params[1..][1..] == [];
    assert KeywordOnlyNames(view.params) == [kw];
  }

  /** `Route.create_base(router).extend(seg)`: a non-strict route on `/seg`. */
  method BaseExtension(router: Router, seg: string) returns (route: Route)
    requires IsSegment(seg)
    ensures route.router == router && route.resource != null
    ensures route.resource.path == "/" + seg && route.resource.enforce == NonStrict
  {
    var base := Route.CreateBase(router, None, None);
    CreateBasePaths();
    OneSegment(seg);
    assert "" + seg == seg;
    var extended := base.Extend(seg, None, None);
    route := extended.value;
  }

  /** A new handler decorated by a non-strict route, without `res_type`. */
  method DecoratedView(route: Route, leaf: string, httpMethod: string, kw: Kwargs, name: string, params: seq<Param>)
    returns (view: Handler)
    requires route.resource != null && route.resource.enforce == NonStrict && ResTypeKey !in kw
    ensures fresh(view) && view.params == params
    ensures view.tag == Some(ViewAttrs(NonStrictPath(route.resource.path + leaf), httpMethod, kw))
  {
    assert kw - {ResTypeKey} == kw;
    var decorator := route.Call(leaf, httpMethod, kw);
    var handler := new Handler(name, params);
    view := decorator.value.Apply(handler);
  }

  /** A ViewSet subclass whose only attribute is the view, on `route`. */
  method DefineViewSet(id: ClassId, name: string, view: Handler, route: Route) returns (err: Option<Error>)
    requires IsView(view)
    modifies route.router
    ensures err == Plan([view], 1).1
    ensures route.router.registrations == old(route.router.registrations) + Plan([view], 1).0
  {
    var meta := new ViewSetMeta();
    var fakeRouter := new Router();
    var placeholder := new Route(fakeRouter, None, false);
    var cls := ViewSetClass(id, [(name, FunctionAttr(view))], RouteAttr(route));
    assert cls.ownDict[1..] == [];
    assert ExtractViews(cls.ownDict) == [view];
    err := InitSubclass(cls, placeholder, meta);
  }

  /** A `/` leaf under a one-segment route is the route's own path, and a
      segment without braces has no identifiers. */
  lemma SlashLeaf(seg: string)
    requires IsSegment(seg) && '{' !in seg
    ensures NonStrictPath("/" + seg + "/") == "/" + seg && ParseArgs("/" + seg) == []
  {
    OneSegment(seg);
    NoBracesNoArgs("/" + seg);
  }

  /** The view test of a registered route definition, for any segment,
      method and keywords (there `test`, GET and `z=10`): a handler taking
      only the request, decorated on the `/` leaf of the extension `seg` of
      a base route, is registered once, on `/seg`, with the method and the
      keywords, and is called with no keyword arguments. */
  method RegisteredRoutedef(seg: string, httpMethod: string, kw: Kwargs) returns (regs: seq<Registration>)
    requires IsSegment(seg) && '{' !in seg && ResTypeKey !in kw
    ensures |regs| == 1
    ensures regs[0].httpMethod == httpMethod && regs[0].path == "/" + seg
    ensures regs[0].options == kw && regs[0].handler.kwNames == []
  {
    var router := new Router();
    var route := BaseExtension(router, seg);
    var view := DecoratedView(route, "/", httpMethod, kw, "list", [Param("request", PositionalOrKeyword)]);
    SlashLeaf(seg);
    RequestOnlyAccepted(view);
    PlanRegistersEveryView([view], 1);
    var err := DefineViewSet(0, "list", view, route);
    regs := router.registrations;
    assert regs == [Expected(view, view.tag.value)];
  }

  /** The view test of a positional parameter after the request: the
      subclass hook reports the signature error and registers nothing. */
  method PositionalParameterRejected(seg: string, leaf: string, p: string) returns (err: Option<Error>, regs: seq<Registration>)
    requires IsSegment(seg)
    ensures err == Some(PositionalArgsError) && regs == []
  {
    var router := new Router();
    var route := BaseExtension(router, seg);
    var view := DecoratedView(route, leaf, "GET", map[], "wrong_arg_name",
                              [Param("request", PositionalOrKeyword), Param(p, PositionalOrKeyword)]);
    SecondPositionalRejected(view, p);
    PlanStopsAtFirstRejected([view], 0);
    err := DefineViewSet(1, "wrong_arg_name", view, route);
    regs := router.registrations;
  }

  /** The view test of a keyword-only name that differs from the path's
      identifier (there `{pk:\\d+}` in the path, `name` in the signature). */
  method MismatchedIdentifierRejected(seg: string, f: Field, kw: string) returns (err: Option<Error>, regs: seq<Registration>)
    requires IsSegment(seg) && '{' !in seg
    requires ValidField(f) && '/' !in FieldText(f) && f.name != kw
    ensures err == Some(NameMismatchError) && regs == []
  {
    var router := new Router();
    var route := BaseExtension(router, seg);
    var view := DecoratedView(route, "/" + FieldText(f), "GET", map[], "wrong_arg_name",
                              [Param("request", PositionalOrKeyword), Param(kw, KeywordOnly)]);
    FieldLeafIdentifier(seg, f);
    assert "/" + seg + ("/" + FieldText(f)) == "/" + seg + "/" + FieldText(f);
    OtherKeywordRejected(view, f.name, kw);
    PlanStopsAtFirstRejected([view], 0);
    err := DefineViewSet(2, "wrong_arg_name", view, route);
    regs := router.registrations;
  }

  /** A direct subclass of GenericViewSet or ReadOnlyModelViewSet that does
      not set `route` inherits the placeholder route: its definition raises
      nothing and registers nothing, whatever its views. */
  method PlaceholderRouteInherited(placeholder: Route, meta: ViewSetMeta, ownDict: seq<(string, Attr)>)
    returns (err: Option<Error>)
    modifies meta, placeholder.router
    ensures err == None && meta.instances == old(meta.instances)
    ensures placeholder.router.registrations == old(placeholder.router.registrations)
  {
    err := InitSubclass(ViewSetClass(5, ownDict, RouteAttr(placeholder)), placeholder, meta);
  }

  /** A ViewSet subclass that sets no `route` finds the `empty` sentinel
      that ViewSet and ModelViewSet carry once defined (the view test of an
      unset route), and one whose `route` is not a Route (the view test
      sets it to None): both are definition errors. */
  method DefinitionErrors() returns (unset: Option<Error>, notARoute: Option<Error>)
    ensures unset == Some(RouteUnsetError) && notARoute == Some(NotARouteError)
    ensures unset.value.kind == ViewSetDefinitionError && notARoute.value.kind == ViewSetDefinitionError
  {
    var meta := new ViewSetMeta();
    var fakeRouter := new Router();
    var placeholder := new Route(fakeRouter, None, false);
    unset := InitSubclass(ViewSetClass(3, [], Unset), placeholder, meta);
    notARoute := InitSubclass(ViewSetClass(4, [], NotARoute), placeholder, meta);
  }

  /** Calling a ViewSet class twice yields the same instance. */
  method SingletonPerClass(meta: ViewSetMeta, cls: ClassId) returns (first: ViewSetInstance, second: ViewSetInstance)
    modifies meta
    ensures first == second && cls in meta.instances && meta.instances[cls] == first
  {
    first := meta.Call(cls);
    second := meta.Call(cls);
  }
}
