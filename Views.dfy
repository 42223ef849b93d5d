/** views.py: the signature checks that tie a view's keyword-only
    parameters to the identifiers of its path, the wrapping of a view into
    a request handler, and the subclass hook that registers every view of a
    ViewSet with the route's router. */
module Views {
  import opened Outcomes
  import opened Resources
  import opened Routes

  // ---------------------------------------------------------------------
  // _parse_args: the field names of a path template, in order

  /** Length of the field name at the start of `t`: up to ':' or '}'. */
  function NameLength(t: string): (n: nat)
    ensures n <= |t|
    ensures forall i :: 0 <= i < n ==> t[i] != ':' && t[i] != '}'
    ensures n < |t| ==> t[n] == ':' || t[n] == '}'
  {
    if t == [] || t[0] == ':' || t[0] == '}' then 0 else 1 + NameLength(t[1..])
  }

  /** Index of the first '}' in `t`, or |t| when there is none. */
  function CloseIndex(t: string): (j: nat)
    ensures j <= |t|
    ensures forall i :: 0 <= i < j ==> t[i] != '}'
    ensures j < |t| ==> t[j] == '}'
  {
    if t == [] || t[0] == '}' then 0 else 1 + CloseIndex(t[1..])
  }

  /** The names of the replacement fields `{name}` or `{name:pattern}` of a
      path, in order. Text outside braces is literal; a field that is not
      closed yields nothing. */
  function ParseArgs(s: string): (ids: seq<string>)
    decreases |s|
  {
    if s == [] then []
    else if s[0] != '{' then ParseArgs(s[1..])
    else
      var field := s[1..];
      var j := CloseIndex(field);
      if j == |field| then []
      else
        var n := NameLength(field);
        var name := field[..n];
        var rest := ParseArgs(field[j + 1..]);
        if name == "" then rest else [name] + rest
  }

  /** Every identifier is a non-empty name without ':' or '}'. */
  lemma {:induction false} ParseArgsNames(s: string)
    ensures forall id :: id in ParseArgs(s) ==> id != "" && ':' !in id && '}' !in id
    decreases |s|
  {
    if s != [] {
      if s[0] != '{' {
        ParseArgsNames(s[1..]);
      } else {
        var field := s[1..];
        var j := CloseIndex(field);
        if j < |field| {
          var n := NameLength(field);
          assert forall k :: 0 <= k < n ==> field[..n][k] == field[k];
          ParseArgsNames(field[j + 1..]);
        }
      }
    }
  }

  /** One replacement field of a path template. */
  datatype Field = Field(name: string, pattern: string)

  /** A field Python's formatter reads the same way: a non-empty name
      without ':', '!', '{', '}', '[' or ']' (an index, which may hold ':'
      and '}'), and a pattern without braces. */
  predicate ValidField(f: Field) {
    && f.name != "" && ':' !in f.name && '!' !in f.name && '{' !in f.name && '}' !in f.name
    && '[' !in f.name && ']' !in f.name
    && '{' !in f.pattern && '}' !in f.pattern
  }

  function FieldText(f: Field): string {
    "{" + f.name + (if f.pattern == "" then "" else ":" + f.pattern) + "}"
  }

  /** The path `/{f1}/{f2}…` with one segment per field. */
  function Template(fields: seq<Field>): string {
    if fields == [] then "" else "/" + FieldText(fields[0]) + Template(fields[1..])
  }

  function Names(fields: seq<Field>): seq<string> {
    seq(|fields|, i requires 0 <= i < |fields| => fields[i].name)
  }

  lemma {:induction false} NameLengthPrefix(name: string, t: string)
    requires ':' !in name && '}' !in name
    ensures NameLength(name + t) == |name| + NameLength(t)
  {
    if name == [] {
      assert name + t == t;
    } else {
      assert (name + t)[0] == name[0];
      assert (name + t)[1..] == name[1..] + t;
      NameLengthPrefix(name[1..], t);
    }
  }

  lemma {:induction false} CloseIndexPrefix(u: string, t: string)
    requires '}' !in u
    ensures CloseIndex(u + t) == |u| + CloseIndex(t)
  {
    if u == [] {
      assert u + t == t;
    } else {
      assert (u + t)[0] == u[0];
      assert (u + t)[1..] == u[1..] + t;
      CloseIndexPrefix(u[1..], t);
    }
  }

  /** Literal text before a field is skipped. */
  lemma {:induction false} ParseSkipsLiteral(lit: string, t: string)
    requires '{' !in lit
    ensures ParseArgs(lit + t) == ParseArgs(t)
  {
    if lit == [] {
      assert lit + t == t;
    } else {
      assert (lit + t)[0] == lit[0];
      assert (lit + t)[1..] == lit[1..] + t;
      ParseSkipsLiteral(lit[1..], t);
    }
  }

  /** ParseArgs at an opening brace whose field is closed. */
  lemma ParseAtBrace(s: string)
    requires s != [] && s[0] == '{' && CloseIndex(s[1..]) < |s[1..]|
    ensures var field := s[1..];
      var n := NameLength(field);
      var rest := ParseArgs(field[CloseIndex(field) + 1..]);
      ParseArgs(s) == if n == 0 then rest else [field[..n]] + rest
  {
    var n := NameLength(s[1..]);
    assert |s[1..][..n]| == n;
  }

  /** Where a well-formed field closes. */
  lemma FieldClose(f: Field, rest: string)
    requires ValidField(f)
    ensures var body := f.name + (if f.pattern == "" then "" else ":" + f.pattern);
      && CloseIndex(body + "}" + rest) == |body|
      && (body + "}" + rest)[|body| + 1..] == rest
  {
    var suffix := if f.pattern == "" then "" else ":" + f.pattern;
    var body := f.name + suffix;
    assert '}' !in suffix;
    assert '}' !in body;
    assert body + "}" + rest == body + ("}" + rest);
    assert ("}" + rest)[0] == '}';
    CloseIndexPrefix(body, "}" + rest);
  }

  /** Where the name of a well-formed field ends. */
  lemma FieldName(f: Field, rest: string)
    requires ValidField(f)
    ensures var field := f.name + (if f.pattern == "" then "" else ":" + f.pattern) + "}" + rest;
      && NameLength(field) == |f.name|
      && field[..|f.name|] == f.name
  {
    var suffix := if f.pattern == "" then "" else ":" + f.pattern;
    var after := suffix + "}" + rest;
    assert after[0] == ':' || after[0] == '}';
    assert f.name + suffix + "}" + rest == f.name + after;
    NameLengthPrefix(f.name, after);
  }

  /** A well-formed field contributes exactly its name. */
  lemma ParseField(f: Field, rest: string)
    requires ValidField(f)
    ensures ParseArgs(FieldText(f) + rest) == [f.name] + ParseArgs(rest)
  {
    var suffix := if f.pattern == "" then "" else ":" + f.pattern;
    var field := f.name + suffix + "}" + rest;
    var s := FieldText(f) + rest;
    assert s == "{" + field;
    assert s[0] == '{' && s[1..] == field;
    FieldClose(f, rest);
    FieldName(f, rest);
    ParseAtBrace(s);
  }

  /** Reading the identifiers back from a template gives its field names. */
  lemma {:induction false} ParseTemplate(fields: seq<Field>)
    requires forall i :: 0 <= i < |fields| ==> ValidField(fields[i])
    ensures ParseArgs(Template(fields)) == Names(fields)
  {
    if fields != [] {
      var f := fields[0];
      var rest := Template(fields[1..]);
      ParseTemplate(fields[1..]);
      assert Template(fields) == "/" + (FieldText(f) + rest);
      ParseSkipsLiteral("/", FieldText(f) + rest);
      ParseField(f, rest);
      NamesCons(fields);
    }
  }

  lemma NamesCons(fields: seq<Field>)
    requires fields != []
    ensures Names(fields) == [fields[0].name] + Names(fields[1..])
  {
    assert forall i :: 1 <= i < |fields| ==> Names(fields)[i] == Names(fields[1..])[i - 1];
  }

  /** A path without '{' has no identifiers. */
  lemma NoBracesNoArgs(s: string)
    requires '{' !in s
    ensures ParseArgs(s) == []
  {
    ParseSkipsLiteral(s, "");
    assert s + "" == s;
  }

  lemma ExampleTemplate(path: string)
    requires path == "/{pk:\\d+}/{name:\\w+}"
    ensures path == Template([Field("pk", "\\d+"), Field("name", "\\w+")])
  {
    var fields := [Field("pk", "\\d+"), Field("name", "\\w+")];
    assert Template(fields[1..]) == "/" + FieldText(fields[1]) + Template([]);
  }

  lemma ParseArgsExample(path: string)
    requires path == "/{pk:\\d+}/{name:\\w+}"
    ensures ParseArgs(path) == ["pk", "name"]
  {
    var fields := [Field("pk", "\\d+"), Field("name", "\\w+")];
    ExampleTemplate(path);
    ParseTemplate(fields);
    assert Names(fields) == ["pk", "name"];
  }

  // ---------------------------------------------------------------------
  // Signature checks

  /** The names of the keyword-only parameters, in declaration order. */
  function KeywordOnlyNames(params: seq<Param>): (names: seq<string>)
    ensures |names| <= |params|
    ensures forall i :: 0 <= i < |names| ==> Param(names[i], KeywordOnly) in params
  {
    if params == [] then []
    else (if params[0].kind == KeywordOnly then [params[0].name] else []) + KeywordOnlyNames(params[1..])
  }

  /** The keyword-only names of a concatenation are those of each part, in
      order: with the one-parameter cases below, this fixes the result as
      the keyword-only names in declaration order. */
  lemma {:induction false} KeywordOnlyNamesAppend(p1: seq<Param>, p2: seq<Param>)
    ensures KeywordOnlyNames(p1 + p2) == KeywordOnlyNames(p1) + KeywordOnlyNames(p2)
  {
    if p1 == [] {
      assert p1 + p2 == p2;
    } else {
      KeywordOnlyNamesAppend(p1[1..], p2);
      KeywordOnlyNamesCons(p1);
      KeywordOnlyNamesCons(p1 + p2);
      TailOfAppend(p1, p2);
      Regroup(KeywordOnlyNames(p1 + p2), KeywordOnlyNames(p1[..1]), KeywordOnlyNames(p1[1..]),
              KeywordOnlyNames(p2), KeywordOnlyNames(p1));
    }
  }

  lemma KeywordOnlyNamesCons(params: seq<Param>)
    requires params != []
    ensures KeywordOnlyNames(params) == KeywordOnlyNames(params[..1]) + KeywordOnlyNames(params[1..])
  {
    assert params[..1][1..] == [];
  }

  lemma TailOfAppend<T>(a: seq<T>, b: seq<T>)
    requires a != []
    ensures (a + b)[..1] == a[..1] && (a + b)[1..] == a[1..] + b
  {
  }

  /** `h + (t + r)` regrouped, once `h + t` is known by another name. */
  lemma Regroup<T>(whole: seq<T>, h: seq<T>, t: seq<T>, r: seq<T>, front: seq<T>)
    requires whole == h + (t + r) && front == h + t
    ensures whole == front + r
  {
  }
  /** A single parameter contributes its name exactly when it is
      keyword-only. */
  lemma KeywordOnlyNamesSingle(p: Param)
    ensures KeywordOnlyNames([p]) == if p.kind == KeywordOnly then [p.name] else []
  {
    assert [p][1..] == [];
  }

  /** How many parameters are not keyword-only. */
  function OtherParamCount(params: seq<Param>): nat {
    if params == [] then 0
    else (if params[0].kind == KeywordOnly then 0 else 1) + OtherParamCount(params[1..])
  }

  /** Every parameter is either keyword-only or not. */
  lemma {:induction false} ParamsPartition(params: seq<Param>)
    ensures |KeywordOnlyNames(params)| + OtherParamCount(params) == |params|
  {
    if params != [] {
      ParamsPartition(params[1..]);
    }
  }

  const PositionalArgsError := Error(ViewSignatureError, NotKeywordOnly)
  const NameMismatchError := Error(ViewSignatureError, IdentifiersMismatch)

  /** _kw_only_args_error: besides the request, every parameter of the bound
      view must be one of the keyword-only names. */
  function KwOnlyArgsError(params: seq<Param>, kwParams: seq<string>): (err: Option<Error>)
    ensures err.Some? <==> |params| != |kwParams| + 1
    ensures err.Some? ==> err.value.kind == ViewSignatureError
  {
    if |params| - 1 != |kwParams| then Some(PositionalArgsError) else None
  }

  /** _wrong_params_error: the identifiers of the view's path must be the
      keyword-only names, in the same order. */
  function WrongParamsError(tag: Option<ViewAttrs>, kwParams: seq<string>): (err: Option<Error>)
    ensures err.None? <==> tag.Some? && ParseArgs(tag.value.path) == kwParams
    ensures err.Some? && tag.Some? ==> err.value == NameMismatchError
    ensures err.Some? && tag.None? ==> err.value.kind == ViewError
  {
    match GetViewAttrs(tag)
    case Err(e) => Some(e)
    case Ok(attrs) => if ParseArgs(attrs.path) != kwParams then Some(NameMismatchError) else None
  }

  /** _check_for_arg_errors: the parameter count is checked first. */
  function CheckForArgErrors(params: seq<Param>, kwParams: seq<string>, tag: Option<ViewAttrs>): (err: Option<Error>)
    ensures |params| != |kwParams| + 1 ==> err == Some(PositionalArgsError)
    ensures err.None? <==> |params| == |kwParams| + 1 && tag.Some? && ParseArgs(tag.value.path) == kwParams
    ensures err.Some? ==> err.value.kind in {ViewSignatureError, ViewError}
  {
    var countError := KwOnlyArgsError(params, kwParams);
    if countError.Some? then countError else WrongParamsError(tag, kwParams)
  }

  /** _get_kwonly_or_raise: the keyword-only names of a well-formed view. */
  function GetKwOnlyOrRaise(view: Handler, tag: Option<ViewAttrs>): (r: Result<seq<string>>)
    ensures r.Ok? <==> OtherParamCount(view.params) == 1 && tag.Some?
                       && ParseArgs(tag.value.path) == KeywordOnlyNames(view.params)
    ensures r.Ok? ==> r.value == KeywordOnlyNames(view.params) && r.value == ParseArgs(tag.value.path)
    ensures OtherParamCount(view.params) != 1 ==> r == Err(PositionalArgsError)
    ensures r.Err? ==> r.error.kind in {ViewSignatureError, ViewError}
  {
    ParamsPartition(view.params);
    var kwParams := KeywordOnlyNames(view.params);
    var err := CheckForArgErrors(view.params, kwParams, tag);
    if err.Some? then Err(err.value) else Ok(kwParams)
  }

  // ---------------------------------------------------------------------
  // Request handlers

  /** What the router passes a handler: the identifiers the path matched. */
  datatype Request = Request(matchInfo: map<string, string>)

  /** A call of the view: the request and the keyword arguments. */
  datatype ViewCall = ViewCall(view: Handler, request: Request, kwargs: map<string, Option<string>>)

  /** The keyword arguments of a view call, `match_info.get(name)` each. */
  function HandlerKwargs(kwNames: seq<string>, matchInfo: map<string, string>): (kwargs: map<string, Option<string>>)
    ensures kwargs.Keys == set n | n in kwNames
    ensures forall n :: n in kwargs ==> (kwargs[n].Some? <==> n in matchInfo)
    ensures forall n :: n in kwargs && n in matchInfo ==> kwargs[n] == Some(matchInfo[n])
  {
    map n | n in kwNames :: if n in matchInfo then Some(matchInfo[n]) else None
  }

  /** The wrapped handler called on a request. */
  function Dispatch(handler: WrappedHandler, request: Request): (call: ViewCall)
    ensures call.view == handler.view && call.request == request
    ensures call.kwargs.Keys == set n | n in handler.kwNames
    ensures forall n :: n in call.kwargs ==> (call.kwargs[n].Some? <==> n in request.matchInfo)
  {
    ViewCall(handler.view, request, HandlerKwargs(handler.kwNames, request.matchInfo))
  }

  /** _get_handler_from_view: the signature is checked once, when the
      handler is made, and the handler fills those names on each call. */
  function GetHandlerFromView(view: Handler, tag: Option<ViewAttrs>): (r: Result<WrappedHandler>)
    ensures r.Ok? <==> GetKwOnlyOrRaise(view, tag).Ok?
    ensures r.Ok? ==> r.value == WrappedHandler(view, ParseArgs(tag.value.path))
    ensures r.Err? ==> r.error == GetKwOnlyOrRaise(view, tag).error
  {
    var kwNames := GetKwOnlyOrRaise(view, tag);
    if kwNames.Err? then Err(kwNames.error) else Ok(WrappedHandler(view, kwNames.value))
  }

  /** A request whose match covers the identifiers of the view's path calls
      the view with exactly those identifiers, each with its matched text. */
  lemma MatchedIdentifiersPassed(view: Handler, request: Request)
    requires GetHandlerFromView(view, view.tag).Ok?
    requires forall n :: n in ParseArgs(view.tag.value.path) ==> n in request.matchInfo
    ensures var call := Dispatch(GetHandlerFromView(view, view.tag).value, request);
      && call.view == view && call.request == request
      && call.kwargs.Keys == set n | n in ParseArgs(view.tag.value.path)
      && forall n :: n in call.kwargs ==> call.kwargs[n] == Some(request.matchInfo[n])
  {
  }

  // ---------------------------------------------------------------------
  // Registration

  /** The route definition made for a wrapped view. */
  function RoutedefFor(handler: WrappedHandler, tag: Option<ViewAttrs>): (r: Result<Registration>)
    ensures r.Ok? <==> tag.Some?
    ensures r.Ok? ==> var attrs := tag.value;
      r.value == Registration(attrs.httpMethod, attrs.path, handler, attrs.routedefKwargs)
  {
    match GetViewAttrs(tag)
    case Err(e) => Err(e)
    case Ok(attrs) => Ok(Registration(attrs.httpMethod, attrs.path, handler, attrs.routedefKwargs))
  }

  /** _create_and_register_routedef: add the route definition to the router. */
  method CreateAndRegisterRoutedef(handler: WrappedHandler, router: Router) returns (err: Option<Error>)
    modifies router
    ensures var reg := RoutedefFor(handler, handler.view.tag);
      && (reg.Err? ==> err == Some(reg.error) && router.registrations == old(router.registrations))
      && (reg.Ok? ==> err == None && router.registrations == old(router.registrations) + [reg.value])
  {
    var reg := RoutedefFor(handler, handler.view.tag);
    if reg.Err? {
      return Some(reg.error);
    }
    router.Register(reg.value);
    return None;
  }

  // ---------------------------------------------------------------------
  // ViewSet classes

  type ClassId = nat

  /** A class attribute: a function (view or not) or anything else. */
  datatype Attr = FunctionAttr(handler: Handler) | OtherAttr

  /** What the `route` class attribute holds. */
  datatype RouteSlot = Unset | NotARoute | RouteAttr(route: Route)

  /** A ViewSet subclass being defined: its own attributes, in definition
      order, and `cls.route` as attribute lookup finds it. A class that sets
      none inherits its base's: the `empty` sentinel under ViewSet and
      ModelViewSet, the placeholder route directly under GenericViewSet or
      ReadOnlyModelViewSet. */
  datatype ViewSetClass = ViewSetClass(id: ClassId, ownDict: seq<(string, Attr)>, route: RouteSlot)

  function DictHandlers(d: seq<(string, Attr)>): set<Handler> {
    set i | 0 <= i < |d| && d[i].1.FunctionAttr? :: d[i].1.handler
  }

  /** _extract_views: the class's own functions that are views, in order.
      The names only serve to fetch the bound method, which here is the
      handler itself. */
  function ExtractViews(d: seq<(string, Attr)>): (views: seq<Handler>)
    reads DictHandlers(d)
    ensures forall i :: 0 <= i < |views| ==> IsView(views[i])
    ensures forall i :: 0 <= i < |views| ==> exists j :: 0 <= j < |d| && d[j].1 == FunctionAttr(views[i])
    ensures forall j :: 0 <= j < |d| && d[j].1.FunctionAttr? && IsView(d[j].1.handler) ==> d[j].1.handler in views
  {
    if d == [] then []
    else
      assert DictHandlers(d[1..]) <= DictHandlers(d) by {
        forall h | h in DictHandlers(d[1..]) ensures h in DictHandlers(d) {
          var i :| 0 <= i < |d[1..]| && d[1..][i].1.FunctionAttr? && d[1..][i].1.handler == h;
          assert d[i + 1] == d[1..][i];
        }
      }
      var head := if d[0].1.FunctionAttr? && IsView(d[0].1.handler) then [d[0].1.handler] else [];
      var tail := ExtractViews(d[1..]);
      assert forall i :: 1 <= i < |d| ==> d[i] == d[1..][i - 1];
      head + tail
  }

  /** The views of a concatenation are those of each part, in order: with
      the one-attribute cases below, this fixes the result as one entry per
      view attribute, in definition order. */
  lemma {:induction false} ExtractViewsAppend(d1: seq<(string, Attr)>, d2: seq<(string, Attr)>)
    ensures ExtractViews(d1 + d2) == ExtractViews(d1) + ExtractViews(d2)
  {
    if d1 == [] {
      assert d1 + d2 == d2;
    } else {
      ExtractViewsAppend(d1[1..], d2);
      ExtractViewsCons(d1);
      ExtractViewsCons(d1 + d2);
      TailOfAppend(d1, d2);
      Regroup(ExtractViews(d1 + d2), ExtractViews(d1[..1]), ExtractViews(d1[1..]),
              ExtractViews(d2), ExtractViews(d1));
    }
  }

  /** A class dictionary's views: those of its first attribute, then the rest's. */
  lemma ExtractViewsCons(d: seq<(string, Attr)>)
    requires d != []
    ensures ExtractViews(d) == ExtractViews(d[..1]) + ExtractViews(d[1..])
  {
    assert d[..1] == [(d[0].0, d[0].1)];
    ExtractViewsSingle(d[0].0, d[0].1);
  }

  /** A function attribute is kept exactly when it is a view; any other
      attribute is dropped. */
  lemma ExtractViewsSingle(name: string, a: Attr)
    ensures ExtractViews([(name, a)]) == if a.FunctionAttr? && IsView(a.handler) then [a.handler] else []
  {
    assert [(name, a)][1..] == [];
  }

  /** What registering one view amounts to: wrapping it (a rejected
      signature is an error) and the route definition for the wrapper. */
  function ViewStep(view: Handler, tag: Option<ViewAttrs>): Result<Registration> {
    match GetHandlerFromView(view, tag)
    case Err(e) => Err(e)
    case Ok(w) => RoutedefFor(w, tag)
  }

  /** A view is registered exactly when its signature is accepted, and then
      as its tag says; otherwise the signature error is reported. */
  lemma ViewStepOutcome(view: Handler, tag: Option<ViewAttrs>)
    ensures var r := ViewStep(view, tag);
      && (r.Ok? <==> GetKwOnlyOrRaise(view, tag).Ok?)
      && (r.Ok? ==> r.value == Expected(view, tag.value))
      && (r.Err? ==> r.error == GetKwOnlyOrRaise(view, tag).error)
  {
  }

  /** The registration made for a well-formed view. */
  function Expected(view: Handler, attrs: ViewAttrs): Registration {
    Registration(attrs.httpMethod, attrs.path, WrappedHandler(view, ParseArgs(attrs.path)), attrs.routedefKwargs)
  }

  /** What `__init_subclass__` adds to the router for the first `n`
      views, in order, and the error that stops it. Defined from the back,
      as the loop extends its prefix. */
  function Plan(views: seq<Handler>, n: nat): (p: (seq<Registration>, Option<Error>))
    requires n <= |views|
    reads views
    ensures |p.0| <= n
  {
    if n == 0 then ([], None)
    else
      var prev := Plan(views, n - 1);
      if prev.1.Some? then prev
      else match ViewStep(views[n - 1], views[n - 1].tag)
        case Err(e) => (prev.0, Some(e))
        case Ok(reg) => (prev.0 + [reg], None)
  }

  /** Once a view is rejected, the views after it change nothing. */
  lemma {:induction false} PlanKeepsError(views: seq<Handler>, k: nat, n: nat)
    requires k <= n <= |views| && Plan(views, k).1.Some?
    ensures Plan(views, n) == Plan(views, k)
    decreases n - k
  {
    if k < n {
      PlanKeepsError(views, k, n - 1);
    }
  }

  /** The loop's step when the view is rejected: the plan ends there. */
  lemma PlanRejects(views: seq<Handler>, i: nat)
    requires i < |views| && Plan(views, i).1 == None && ViewStep(views[i], views[i].tag).Err?
    ensures Plan(views, |views|) == (Plan(views, i).0, Some(ViewStep(views[i], views[i].tag).error))
  {
    PlanKeepsError(views, i + 1, |views|);
  }

  /** The loop's step when the view is accepted: its registration follows
      those of the views before it. */
  lemma PlanAccepts(views: seq<Handler>, i: nat)
    requires i < |views| && Plan(views, i).1 == None && ViewStep(views[i], views[i].tag).Ok?
    ensures Plan(views, i + 1) == (Plan(views, i).0 + [ViewStep(views[i], views[i].tag).value], None)
  {
  }

  /** With every view well-formed, each view is registered once, in order. */
  lemma {:induction false} PlanRegistersEveryView(views: seq<Handler>, n: nat)
    requires n <= |views|
    requires forall i :: 0 <= i < n ==> GetKwOnlyOrRaise(views[i], views[i].tag).Ok?
    ensures Plan(views, n).1 == None
    ensures |Plan(views, n).0| == n
    ensures forall i :: 0 <= i < n ==> IsView(views[i]) && Plan(views, n).0[i] == Expected(views[i], views[i].tag.value)
  {
    if n > 0 {
      PlanRegistersEveryView(views, n - 1);
      var prev := Plan(views, n - 1).0;
      var last := views[n - 1];
      ViewStepOutcome(last, last.tag);
      var reg := Expected(last, last.tag.value);
      assert ViewStep(last, last.tag) == Ok(reg);
      assert Plan(views, n) == (prev + [reg], None);
      forall i | 0 <= i < n
        ensures IsView(views[i]) && Plan(views, n).0[i] == Expected(views[i], views[i].tag.value)
      {
        if i < n - 1 {
          assert Plan(views, n).0[i] == prev[i];
        }
      }
    }
  }

  /** The first rejected view stops registration: the views before it are
      registered and its signature error is reported. */
  lemma PlanStopsAtFirstRejected(views: seq<Handler>, k: nat)
    requires k < |views|
    requires forall i :: 0 <= i < k ==> GetKwOnlyOrRaise(views[i], views[i].tag).Ok?
    requires GetKwOnlyOrRaise(views[k], views[k].tag).Err?
    ensures Plan(views, |views|).1 == Some(GetKwOnlyOrRaise(views[k], views[k].tag).error)
    ensures Plan(views, |views|).0 == Plan(views, k).0
    ensures |Plan(views, |views|).0| == k
    ensures forall i :: 0 <= i < k ==> IsView(views[i]) && Plan(views, |views|).0[i] == Expected(views[i], views[i].tag.value)
  {
    PlanRegistersEveryView(views, k);
    ViewStepOutcome(views[k], views[k].tag);
    PlanRejects(views, k);
  }

  /** The objects built for ViewSet classes, one per class. */
  class ViewSetInstance {
    const cls: ClassId

    constructor (cls: ClassId)
      ensures this.cls == cls
    {
      this.cls := cls;
    }
  }

  /** _ViewSetMeta: the metaclass whose call makes each class a singleton. */
  class ViewSetMeta {
    var instances: map<ClassId, ViewSetInstance>

    constructor ()
      ensures instances == map[]
    {
      instances := map[];
    }

    /** `__call__`: the stored instance, or a new one that is stored. */
    method Call(cls: ClassId) returns (instance: ViewSetInstance)
      modifies this
      ensures cls in old(instances) ==> instance == old(instances[cls]) && instances == old(instances)
      ensures cls !in old(instances) ==> fresh(instance) && instance.cls == cls && instances == old(instances)[cls := instance]
    {
      if cls !in instances {
        instance := new ViewSetInstance(cls);
        instances := instances[cls := instance];
      } else {
        instance := instances[cls];
      }
    }
  }

  const RouteUnsetError := Error(ViewSetDefinitionError, RouteNotSet)
  const NotARouteError := Error(ViewSetDefinitionError, RouteNotARoute)

  function RoutersOf(slot: RouteSlot): set<Router> {
    if slot.RouteAttr? then {slot.route.router} else {}
  }

  /** The singleton table only gains the entry of `id`. */
  predicate InstancesGrow(before: map<ClassId, ViewSetInstance>, after: map<ClassId, ViewSetInstance>, id: ClassId) {
    && after.Keys <= before.Keys + {id}
    && forall c :: c in before ==> c in after && after[c] == before[c]
  }

  /** One pass of the registration loop: make the class's instance, wrap
      the view, register its route definition. */
  method RegisterView(id: ClassId, view: Handler, router: Router, meta: ViewSetMeta) returns (err: Option<Error>)
    modifies meta, router
    ensures var step := ViewStep(view, view.tag);
      && (step.Err? ==> err == Some(step.error) && router.registrations == old(router.registrations))
      && (step.Ok? ==> err == None && router.registrations == old(router.registrations) + [step.value])
    ensures id in meta.instances && InstancesGrow(old(meta.instances), meta.instances, id)
  {
    var instance := meta.Call(id);
    var handler := GetHandlerFromView(view, view.tag);
    if handler.Err? {
      return Some(handler.error);
    }
    err := CreateAndRegisterRoutedef(handler.value, router);
  }

  /** The registration loop of `__init_subclass__`: the views in order,
      until one is rejected. */
  method RegisterViews(id: ClassId, views: seq<Handler>, router: Router, meta: ViewSetMeta)
    returns (err: Option<Error>)
    modifies meta, router
    ensures err == Plan(views, |views|).1
    ensures router.registrations == old(router.registrations) + Plan(views, |views|).0
    ensures views == [] ==> meta.instances == old(meta.instances)
    ensures views != [] ==> id in meta.instances
    ensures InstancesGrow(old(meta.instances), meta.instances, id)
  {
    var i := 0;
    while i < |views|
      invariant 0 <= i <= |views|
      invariant Plan(views, i).1 == None
      invariant router.registrations == old(router.registrations) + Plan(views, i).0
      invariant i == 0 ==> meta.instances == old(meta.instances)
      invariant i > 0 ==> id in meta.instances
      invariant InstancesGrow(old(meta.instances), meta.instances, id)
    {
      err := RegisterView(id, views[i], router, meta);
      if err.Some? {
        PlanRejects(views, i);
        return;
      }
      PlanAccepts(views, i);
      i := i + 1;
    }
    return None;
  }

  /** GenericViewSet.__init_subclass__: check the `route` attribute; unless
      it is the placeholder route, register each view of the class with the
      route's router. */
  method InitSubclass(cls: ViewSetClass, placeholder: Route, meta: ViewSetMeta) returns (err: Option<Error>)
    modifies meta, RoutersOf(cls.route)
    ensures cls.route == Unset ==> err == Some(RouteUnsetError) && meta.instances == old(meta.instances)
    ensures cls.route == NotARoute ==> err == Some(NotARouteError) && meta.instances == old(meta.instances)
    ensures cls.route == RouteAttr(placeholder) ==>
      && err == None && meta.instances == old(meta.instances)
      && placeholder.router.registrations == old(placeholder.router.registrations)
    ensures cls.route.RouteAttr? && cls.route.route != placeholder ==>
      var router := cls.route.route.router;
      var views := old(ExtractViews(cls.ownDict));
      && err == Plan(views, |views|).1
      && router.registrations == old(router.registrations) + Plan(views, |views|).0
      && (views == [] ==> meta.instances == old(meta.instances))
      && (views != [] ==> cls.id in meta.instances)
      && InstancesGrow(old(meta.instances), meta.instances, cls.id)
  {
    match cls.route
    case Unset => return Some(RouteUnsetError);
    case NotARoute => return Some(NotARouteError);
    case RouteAttr(route) =>
      if route == placeholder {
        return None;
      }
      var views := ExtractViews(cls.ownDict);
      err := RegisterViews(cls.id, views, route.router, meta);
  }
}
