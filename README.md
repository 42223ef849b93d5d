# LAViewSet routing core in Dafny

LAViewSet is a small declarative routing layer over aiohttp. It turns a
class of handler methods into a list of `(method, path, options)` route
definitions registered with a router. This project models the three files
that do that work and proves what they promise.

- **Path builder** (`laviewset/resources.py`). The two normalisers
  `strict_build` and `non_strict_build` are loops. They are proved against
  the functions `StrictPath` and `NonStrictPath`, which are defined from
  `str.split('/')` and the non-empty filter. `Rfc.get_build` picks a
  normaliser from a policy. `Resource` is a class whose `path` field is
  rewritten by `build` and by the leaf validation table.
- **Routes and view tags** (`laviewset/routes.py`). `Route` is a class
  over a `Resource` and a router. Calling a route yields a decorator that
  tags a handler in place with `ViewAttrs`. A leaf's `TypeError` is
  re-raised as a `RouteError`. The function `ViewFor` states what a call
  computes.
- **Signature checks and registration** (`laviewset/views.py`).
  `_parse_args` is a scanner for `{name}` and `{name:pattern}` fields. The
  signature checks compare the keyword-only parameters with those names.
  The wrapped handler fills its keyword arguments from the matched path.
  `__init_subclass__` is a loop that registers the class's views, in
  order, until one is rejected. It is proved against the function `Plan`.
  `_ViewSetMeta.__call__` fills a per-class singleton table.

Modules:

- `Outcomes` holds `Option`, `Result`, the exception kinds and their
  messages.
- `Resources`, `Routes` and `Views` follow the three source files.
- `Scenarios` replays the package's route and view tests for arbitrary
  segments, methods and keywords.

Raising an exception is modelled as returning `Err` (or `Some(error)`),
and mutation of objects as `modifies` on class fields. The external router
is a `Router` object that records registrations in order.

Where the code and its tests disagree, the model follows the code:

- An extended route's default name is `Extension of Route: <name>`
  (tests/test_routes.py:89 expects the parent's name).
- A non-strict `/` leaf drops the slash (tests/test_routes.py:111 expects
  it kept); see `Scenarios.SlashLeaf`.

## Model

| member | source | states |
|---|---|---|
| Resources.RfcFromValue | laviewset/resources.py:28-34 | `Rfc(value)` yields the member whose value string is `value`; when it yields nothing, no member has that value |
| Resources.Split | laviewset/resources.py:12 | `p.split('/')` yields at least one piece, and no piece contains a slash |
| Resources.JoinSplit | laviewset/resources.py:12 | the model of `p.split('/')` loses nothing: joining the pieces with `/` gives `p` back |
| Resources.SplitConcat | laviewset/resources.py:12 | splitting `a + '/' + b` splits `a` and `b` independently |
| Resources.NonEmpty | laviewset/resources.py:12 | the comprehension `[r for r in pieces if r]` keeps only non-empty pieces, all taken from the input |
| Resources.NonEmptyAppend | laviewset/resources.py:12 | filtering out empty pieces distributes over concatenation |
| Resources.Segments | laviewset/resources.py:12 | every segment of a path is non-empty and slash-free |
| Resources.SegmentsOfSlashed | laviewset/resources.py:13-14 | a built path, with or without the trailing slash, has exactly the segments it was built from |
| Resources.SlashedShape | laviewset/resources.py:23-24 | a built path has no `//`; it is empty exactly when there are no segments, and otherwise starts with `/` and does not end with one |
| Resources.StrictBuild | laviewset/resources.py:7-15 | the loop returns `StrictPath(p)`: `/` before each non-empty segment of `p`, in order, then one final `/` |
| Resources.NonStrictBuild | laviewset/resources.py:18-25 | the loop returns `NonStrictPath(p)`: `/` before each non-empty segment of `p`, in order |
| Resources.NonStrictPathShape | laviewset/resources.py:18-25 | non-strict output keeps the input's segments, has no `//`, is empty exactly when the input has no segment, and otherwise starts with `/` and does not end with one |
| Resources.StrictPathShape | laviewset/resources.py:7-15 | strict output keeps the input's segments, has no `//`, and starts and ends with `/` |
| Resources.BuildersIdempotent | laviewset/resources.py:12-13 | each builder applied to its own output changes nothing |
| Resources.ExtraSlashIgnored | laviewset/resources.py:110-114 | a leading slash on the extension makes no difference after an empty or slash-terminated path (`extend('/listings')` equals `extend('listings')`) |
| Resources.OneSegment | laviewset/resources.py:7-25 | a single segment, bare or slashed on either side, builds to `/seg` non-strictly and to `/seg/` strictly |
| Resources.TwoSegments | laviewset/resources.py:7-25 | `/a/b` has segments `[a, b]`, is already non-strict-normal, and gains only a trailing slash under strict |
| Resources.BuilderExamples | tests/test_resources.py:13-36 | the builders map `''` to `/` and `''`, `/a` to `/a/` and `/a`, and `/a/b` to `/a/b/` and `/a/b` |
| Resources.BuildNormalises | laviewset/resources.py:36-45 | STRICT and NON_STRICT builders keep segments, drop `//`, and differ exactly in the trailing slash; every other policy's builder is the identity |
| Resources.GetBuild | laviewset/resources.py:36-45 | every policy's builder is idempotent: building a built path changes nothing; a resource type's builder is the identity |
| Resources.ValidatedPath | laviewset/resources.py:133-175 | the leaf table raises TypeError exactly for strict with EMPTY and for non-strict with a non-EMPTY type; strict SUB removes exactly the last character; every other accepted combination keeps the path |
| Resources.StrictSubLeaf | laviewset/resources.py:164-165 | a strict subordinate leaf is the non-strict build of the joined path: the character removed is the trailing slash |
| Resources.LeafTrailingSlash | laviewset/resources.py:117-131 | a strict collection leaf ends with `/`; a non-strict leaf is empty or does not end with `/`; neither has `//` |
| Resources.StrictCollectionLeaf | tests/test_resources.py:117-119 | the strict collection leaf `/b` under `/a/` is `/a/b/` |
| Resources.StrictSubordinateLeaf | tests/test_resources.py:121-122 | the strict subordinate leaf `b` under `/a/` is `/a/b` |
| Resources.NonStrictAndRejectedLeaves | tests/test_resources.py:125-140 | the non-strict leaf `/b` under `/a` is `/a/b`; a strict leaf without a type and a non-strict leaf with one raise TypeError |
| Resources.CreateBasePaths | laviewset/resources.py:71-75 | the base resource's path is `''` under the default policy and `/` under STRICT |
| Resources.Resource.constructor | laviewset/resources.py:65-69 | keeps the path; enforce defaults to NON_STRICT and res_type to EMPTY |
| Resources.Resource.CreateBase | laviewset/resources.py:71-75 | a fresh resource with res_type EMPTY, built from `/` under the given or default policy |
| Resources.Resource.Build | laviewset/resources.py:77-79 | the path becomes the policy's build of the old path, and nothing else changes |
| Resources.Resource.Add | laviewset/resources.py:81-95 | a fresh resource with the right operand's enforce and res_type, whose path is that policy's build of the two paths joined |
| Resources.Resource.Extend | laviewset/resources.py:100-115 | a fresh resource with the given policy (else the parent's) and res_type EMPTY, whose path is that policy's build of `parent.path + seg`; the parent is untouched |
| Resources.Resource.Leaf | laviewset/resources.py:117-131 | fails exactly when the leaf table rejects the pair, with its error; otherwise a fresh resource with the parent's policy, the given type and the validated path |
| Resources.Resource.ValidateLeaf | laviewset/resources.py:133-153 | dispatches on enforce: the error and the new path are those of the leaf table, and a rejected leaf keeps its path |
| Resources.Resource.ValidateStrict | laviewset/resources.py:155-165 | EMPTY raises TypeError; SUB drops the last character of the path; any other type leaves it |
| Resources.Resource.ValidateNonStrict | laviewset/resources.py:167-175 | raises TypeError exactly when a non-EMPTY type is given |
| Routes.Pop | laviewset/routes.py:22-28 | returns `d[key]` and `d` without `key` when the key is present; otherwise None and `d` unchanged |
| Routes.MakeView | laviewset/routes.py:38-45 | tags the handler in place and returns the same handler, which is now a view carrying exactly those attributes |
| Routes.GetViewAttrs | laviewset/routes.py:147-158 | returns the stored attributes exactly when the handler is a view, and raises ViewError otherwise |
| Routes.Router.Register | laviewset/views.py:96 | registering a route definition appends it to the router's registrations |
| Routes.ResTypeArgument | laviewset/resources.py:147-148 | an absent or None `res_type` is the default; a member, or a member's value string, stands for that member; anything else raises ValueError |
| Routes.PolicyStringsAccepted | laviewset/resources.py:28-34 | every member, and every member's value string, is accepted as `res_type` and stands for that member |
| Routes.Decorator.Apply | laviewset/routes.py:126-130 | the decorator returns the same handler, tagged with the route's attributes |
| Routes.Route.constructor | laviewset/routes.py:52-63 | keeps the router and `is_base`; an unnamed route gets the default name; no resource yet |
| Routes.Route.ToString | laviewset/routes.py:134-135 | `str(route)` is `Route: ` followed by the name, and nothing else |
| Routes.Route.Path | laviewset/routes.py:65-67 | the path property is the resource's path, or `None` when no resource is set |
| Routes.Route.SetPath | laviewset/routes.py:69-73 | setting a non-Resource raises TypeError and keeps the old resource; a Resource replaces it |
| Routes.Route.CreateBase | laviewset/routes.py:75-86 | a fresh base route on the same router, with the given name, whose resource is the fresh base resource of the given policy |
| Routes.Route.Extend | laviewset/routes.py:88-105 | an empty segment raises RouteError; otherwise a fresh non-base route on the same router, named `Extension of Route: …` when no name is passed, the default name when `name=None` is passed, and the given name otherwise, whose path is the extended resource's |
| Routes.Route.Call | laviewset/routes.py:107-132 | the decorator carries exactly what `ViewFor` computes, or the call fails with its error: a route without a resource fails with AttributeError |
| Routes.ViewForOutcome | laviewset/routes.py:113-130 | for every accepted `res_type`, absent or None meaning EMPTY, a call fails exactly when the leaf is rejected, always as a RouteError carrying the leaf's message; on success it tags the leaf path, the method and every keyword except `res_type` |
| Routes.StrictSubordinateRoute | laviewset/routes.py:113-130 | a strict route called with `res_type=SUB` tags the non-strict path of the leaf and passes the other keywords on |
| Routes.StrictCollectionRoute | laviewset/routes.py:113-130 | a strict route called with `res_type='collection'` tags the strict path of the leaf, trailing slash included |
| Routes.StrictUntypedRouteRejected | laviewset/routes.py:114-120 | a strict route called without `res_type` raises a RouteError wrapping the leaf's TypeError message |
| Views.NameLength | laviewset/views.py:71-73 | a field name runs up to the first `:` or `}` |
| Views.CloseIndex | laviewset/views.py:71-73 | a field ends at the first `}` |
| Views.ParseArgsNames | laviewset/views.py:71-73 | every parsed identifier is non-empty and contains neither `:` nor `}` |
| Views.ParseSkipsLiteral | laviewset/views.py:71-73 | literal text without `{` contributes no identifier |
| Views.ParseField | laviewset/views.py:71-73 | a field `{name}` or `{name:pattern}` contributes exactly `name`, whatever the pattern |
| Views.ParseTemplate | laviewset/views.py:71-73 | parsing the path `/{f1}/{f2}…` gives the field names, in order |
| Views.NoBracesNoArgs | laviewset/views.py:71-73 | a path without `{` has no identifiers |
| Views.ExampleTemplate | tests/test_views.py:92 | `/{pk:\d+}/{name:\w+}` is the two-field template of `pk` and `name` |
| Views.ParseArgsExample | tests/test_views.py:92-93 | `/{pk:\d+}/{name:\w+}` parses to `["pk", "name"]` |
| Views.KeywordOnlyNames | laviewset/views.py:187-190 | the keyword-only names are names of keyword-only parameters, no more of them than parameters |
| Views.KeywordOnlyNamesSingle | laviewset/views.py:187-190 | one parameter contributes its name exactly when it is keyword-only |
| Views.KeywordOnlyNamesAppend | laviewset/views.py:187-190 | the keyword-only names of a concatenation are those of each part, in order: with the one-parameter case, the names are exactly the keyword-only parameters' names in signature order |
| Views.ParamsPartition | laviewset/views.py:186-190 | every parameter is counted once, either among the keyword-only names or among the others |
| Views.KwOnlyArgsError | laviewset/views.py:146-176 | raises ViewSignatureError exactly when `len(params) - 1 != len(kw_only)` |
| Views.CheckForArgErrors | laviewset/views.py:101-113 | a wrong parameter count is reported first; the signature passes exactly when there is one parameter more than keyword-only names and the view's path identifiers equal the keyword-only names in order |
| Views.WrongParamsError | laviewset/views.py:116-143 | passes exactly when the handler is a view whose path identifiers equal the keyword-only names in order; a view that fails raises ViewSignatureError, a non-view ViewError |
| Views.GetKwOnlyOrRaise | laviewset/views.py:179-194 | succeeds exactly when exactly one parameter, whatever its name, is not keyword-only and the path identifiers equal the keyword-only names in order, and then returns them; a positional parameter is reported first |
| Views.HandlerKwargs | laviewset/views.py:211-214 | one argument per keyword-only name: the matched text when the name was matched, None otherwise |
| Views.Dispatch | laviewset/views.py:209-216 | the wrapped handler calls its view with the request and one keyword argument per keyword-only name, set exactly when the name was matched |
| Views.GetHandlerFromView | laviewset/views.py:197-218 | wraps exactly the views whose signature is accepted, with the path's identifiers as the names to fill; otherwise the signature error |
| Views.MatchedIdentifiersPassed | laviewset/views.py:209-216 | a request matching every identifier calls the view with the request and exactly those identifiers, each bound to its matched text |
| Views.RoutedefFor | laviewset/views.py:88-95 | the route definition of a wrapped view has the tag's method, path and routedef kwargs; a non-view raises ViewError |
| Views.CreateAndRegisterRoutedef | laviewset/views.py:82-96 | appends that route definition to the router, or raises its error and registers nothing |
| Views.ExtractViews | laviewset/views.py:76-79 | the result holds only views taken from the class's own attributes, and every view among them |
| Views.ExtractViewsSingle | laviewset/views.py:76-79 | one attribute is kept exactly when it is a view function |
| Views.ExtractViewsAppend | laviewset/views.py:76-79 | the views of a concatenation are those of each part, in order: with the one-attribute case, the result is exactly the class's views in definition order |
| Views.ViewStepOutcome | laviewset/views.py:294-300 | registering one view succeeds exactly when its signature is accepted, with the expected route definition; otherwise it reports the signature error |
| Views.PlanKeepsError | laviewset/views.py:291-300 | after a rejected view, later views change neither the registrations nor the error |
| Views.PlanRejects | laviewset/views.py:294-295 | a rejected view ends registration with its error, keeping what was registered before it |
| Views.PlanAccepts | laviewset/views.py:294-300 | an accepted view's route definition follows those of the views before it |
| Views.PlanRegistersEveryView | laviewset/views.py:291-300 | when every view is well-formed, each is registered exactly once, in order, with its expected route definition |
| Views.PlanStopsAtFirstRejected | laviewset/views.py:291-300 | the first rejected view stops registration: its error is raised, and exactly the views before it are registered, each once, in order, with its expected route definition |
| Views.ViewSetMeta.Call | laviewset/views.py:259-266 | the first call for a class creates and stores an instance; later calls return the stored instance and change nothing |
| Views.RegisterView | laviewset/views.py:294-300 | one loop pass: the class's instance exists afterwards, and the router gains the view's route definition or nothing, with the signature error |
| Views.RegisterViews | laviewset/views.py:291-300 | the registrations added and the error raised are those of `Plan`; the singleton table only gains the class, and only if there is a view |
| Views.InitSubclass | laviewset/views.py:273-300 | `route` unset or not a Route raises ViewSetDefinitionError; the placeholder registers nothing; a concrete route's router gains exactly the `Plan` of the class's views |
| Scenarios.FieldLeafIdentifier | tests/test_views.py:224-226 | a field in the last segment of `/a/<field>` is that path's only identifier |
| Scenarios.RequestOnlyAccepted | tests/test_views.py:289-290 | a view taking only the request, on a path without identifiers, is accepted with no keyword-only names |
| Scenarios.SecondPositionalRejected | tests/test_views.py:246-247 | a second positional parameter is rejected whatever the path |
| Scenarios.OtherKeywordRejected | tests/test_views.py:226-227 | a keyword-only name other than the path's identifier is rejected |
| Scenarios.BaseExtension | tests/test_routes.py:85-93 | extending the base route by `seg` gives a non-strict route on `/seg` over the same router |
| Scenarios.DecoratedView | tests/test_routes.py:101-113 | a non-strict route call tags a new handler with the non-strict path of the leaf, the method and the keywords |
| Scenarios.SlashLeaf | tests/test_routes.py:111 | the `/` leaf of `/seg` is `/seg` under the non-strict policy, and has no identifiers |
| Scenarios.DefineViewSet | laviewset/views.py:291-300 | defining a class whose only attribute is a view registers exactly that view's `Plan` |
| Scenarios.RegisteredRoutedef | tests/test_views.py:282-305 | a request-only view on the `/` leaf of `seg` is registered once, on `/seg`, with its method and keywords, and is called with no keyword arguments |
| Scenarios.PositionalParameterRejected | tests/test_views.py:232-249 | a positional parameter after the request raises ViewSignatureError and registers nothing |
| Scenarios.MismatchedIdentifierRejected | tests/test_views.py:218-229 | a keyword-only name differing from the path's identifier raises ViewSignatureError and registers nothing |
| Scenarios.PlaceholderRouteInherited | laviewset/views.py:271-289 | a direct GenericViewSet or ReadOnlyModelViewSet subclass that sets no `route` inherits the placeholder: nothing is raised and nothing registered |
| Scenarios.DefinitionErrors | tests/test_views.py:252-272 | a ViewSet subclass that sets no `route` finds `empty` and raises ViewSetDefinitionError, as does one whose `route` is not a Route |
| Scenarios.SingletonPerClass | laviewset/views.py:259-266 | calling a class twice yields the same stored instance |

## Left out

- aiohttp itself is not modelled (`web.route`, `RouteDef.register`, the `UrlDispatcher`). A router is a `Router` object that records registrations in order; aiohttp's own checks of the method, path and routedef keywords are not modelled.
- Handlers are not async and nothing is awaited. `Dispatch` models only the keyword arguments the wrapped handler builds and the view it calls; the response is not modelled.
- `inspect.signature` and reflection are replaced by explicit data. A handler's parameters, as seen through the bound method without `self`, are a `seq<Param>`. A class's own dictionary is a sequence of attributes, and `cls.route` is given already resolved.
- `Routes.GetViewAttrs` and the signature checks take the handler's tag value as read at the call, not the handler. They are pure functions of that value.
- The two view attributes `_view_` and `_view_attrs_` are one `Option<ViewAttrs>`. A handler carrying `_view_` without `_view_attrs_`, as the fixture at tests/test_routes.py:19-23 builds, cannot be represented.
- `_parse_args` is a simplified scanner instead of `string.Formatter().parse`. It has no `{{`/`}}` escapes, no `!conversion` and no nested format specs. A field without a closing `}` yields nothing, where Python raises ValueError, and a stray `}` is literal text, where Python raises too. Python also reads `[…]` in a field name as an index, which may contain `:` and `}`; the scanner has no index syntax. The field lemmas only cover fields whose name has no `:`, `!`, `{`, `}`, `[` or `]` and whose pattern has no brace (`Views.ValidField`); brackets in the pattern are plain text to both readers.
- Exception messages are an enumeration; `Outcomes.Text` gives their fixed text. Interpolated parts are not modelled: the class and function names and the identifier lists of ViewSignatureError, the type in the path setter's TypeError, the attribute name (`leaf` or `extend`) in the AttributeError of a route without a resource, and the offending value of `Rfc(value)`.
- `Routes.Route.SetPath` stands for every non-Resource value with `null`.
- `Route.create_base` and `Route.extend` take `name` and `enforce` as explicit options. Other keyword arguments are not modelled: `create_base` passes them on to `Route(...)`, which rejects unknown ones, and `extend` ignores them.
- An `enforce` given as a policy's value string, and an `enforce` that is no policy at all, are not modelled: `enforce` is an `Rfc` member here. In the source, `Rfc.get_build` converts a value string and raises ValueError for anything else (laviewset/resources.py:38, reached from `Resource.__init__` at laviewset/resources.py:69).
- A `res_type` given as a string is converted to its member up front. The source stores the string on the Resource and converts it during leaf validation; the outcome is the same.
- Route composition with `+` is not modelled: `Route` in laviewset/routes.py defines no `__add__`, although tests/test_routes.py:59-75 use it. `Resource.__add__` is modelled.
- The module-level placeholder route `_fake_route` is a parameter of `Views.InitSubclass`. Its construction at laviewset/views.py:241-242 is not modelled.
- The singleton table's instances are created without constructor arguments; `super().__call__(*args, **kwargs)` is not modelled.
- laviewset/mixins.py (database and serialisation handlers), laviewset/http_meths.py (plain strings here), the package re-exports, the test fixtures' database setup, setup.py and prac.py are not part of this model.
- Views.Plan: its own contract only bounds the number of registrations; what it means is stated by the `Plan…` lemmas and by `Views.RegisterViews`.
