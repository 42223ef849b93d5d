/** resources.py: normalisation of URI paths under the two enforcement
    policies, and the Resource builder that applies them. */
module Resources {
  import opened Outcomes

  /** The policy enum: two enforcement policies (Strict, NonStrict) and
      three resource types (Col, Sub, Empty). */
  datatype Rfc = Strict | NonStrict | Col | Sub | Empty

  /** The value string of each enum member. */
  function RfcValue(r: Rfc): string {
    match r
    case Strict => "strict"
    case NonStrict => "non_strict"
    case Col => "collection"
    case Sub => "subordinate"
    case Empty => "empty"
  }

  /** `Rfc(s)`: the member whose value is `s`, if there is one. */
  function RfcFromValue(s: string): (r: Option<Rfc>)
    ensures r.Some? ==> RfcValue(r.value) == s
    ensures r.None? ==> forall p :: RfcValue(p) != s
  {
    if s == "strict" then Some(Strict)
    else if s == "non_strict" then Some(NonStrict)
    else if s == "collection" then Some(Col)
    else if s == "subordinate" then Some(Sub)
    else if s == "empty" then Some(Empty)
    else None
  }

  // ---------------------------------------------------------------------
  // Segments of a path

  predicate SlashFree(s: string) {
    '/' !in s
  }

  /** A segment kept by the builders: non-empty and without a slash. */
  predicate IsSegment(s: string) {
    s != "" && SlashFree(s)
  }

  /** `p.split('/')`: the pieces between slashes, empty ones included;
      there is always at least one piece. */
  function Split(p: string): (pieces: seq<string>)
    ensures |pieces| >= 1
    ensures forall i :: 0 <= i < |pieces| ==> SlashFree(pieces[i])
  {
    if p == [] then [""]
    else
      var rest := Split(p[1..]);
      if p[0] == '/' then [""] + rest
      else [[p[0]] + rest[0]] + rest[1..]
  }

  /** `'/'.join(pieces)`, the inverse of Split. */
  function Join(pieces: seq<string>): string
    requires |pieces| >= 1
  {
    if |pieces| == 1 then pieces[0] else pieces[0] + "/" + Join(pieces[1..])
  }

  /** Joining the pieces of a split gives back the original string. */
  lemma {:induction false} JoinSplit(p: string)
    ensures Join(Split(p)) == p
  {
    if p != [] {
      JoinSplit(p[1..]);
      var rest := Split(p[1..]);
      assert p == [p[0]] + p[1..];
      if p[0] == '/' {
        assert Split(p) == [""] + rest;
        assert Join([""] + rest) == "" + "/" + Join(rest);
      } else {
        var head := [p[0]] + rest[0];
        assert Split(p) == [head] + rest[1..];
        if |rest| == 1 {
          assert Join(Split(p)) == head;
        } else {
          assert Join(rest) == rest[0] + "/" + Join(rest[1..]);
          assert ([head] + rest[1..])[1..] == rest[1..];
          assert Join(Split(p)) == head + "/" + Join(rest[1..]);
        }
      }
    }
  }

  /** Split unfolded once, at the first character. */
  lemma SplitCons(c: char, t: string)
    ensures Split([c] + t) == if c == '/' then [""] + Split(t) else [[c] + Split(t)[0]] + Split(t)[1..]
  {
    assert ([c] + t)[0] == c && ([c] + t)[1..] == t;
  }

  /** Splitting at a slash splits the two sides independently. */
  lemma {:induction false} SplitConcat(a: string, b: string)
    ensures Split(a + "/" + b) == Split(a) + Split(b)
  {
    if a == [] {
      assert a + "/" + b == ['/'] + b;
      SplitCons('/', b);
    } else {
      var c, t := a[0], a[1..];
      SplitConcat(t, b);
      assert a == [c] + t;
      assert a + "/" + b == [c] + (t + "/" + b);
      if c == '/' {
        SplitSlashStep(t, b);
      } else {
        SplitCharStep(c, t, b);
      }
    }
  }

  lemma SplitSlashStep(t: string, b: string)
    requires Split(t + "/" + b) == Split(t) + Split(b)
    ensures Split(['/'] + (t + "/" + b)) == Split(['/'] + t) + Split(b)
  {
    SplitCons('/', t + "/" + b);
    SplitCons('/', t);
  }

  lemma SplitCharStep(c: char, t: string, b: string)
    requires c != '/'
    requires Split(t + "/" + b) == Split(t) + Split(b)
    ensures Split([c] + (t + "/" + b)) == Split([c] + t) + Split(b)
  {
    var rt, rb := Split(t), Split(b);
    var ru := Split(t + "/" + b);
    SplitCons(c, t + "/" + b);
    SplitCons(c, t);
    assert Split([c] + (t + "/" + b)) == [[c] + ru[0]] + ru[1..];
    assert Split([c] + t) == [[c] + rt[0]] + rt[1..];
    ConsAppend([c] + rt[0], rt, rb);
  }

  /** Replacing the head of `x` commutes with appending `y`. */
  lemma ConsAppend(h: string, x: seq<string>, y: seq<string>)
    requires |x| >= 1
    ensures [h] + (x + y)[1..] == ([h] + x[1..]) + y
    ensures (x + y)[0] == x[0]
  {
    assert (x + y)[1..] == x[1..] + y;
  }

  /** A string without a slash is its own only piece. */
  lemma {:induction false} SplitSlashFree(s: string)
    requires SlashFree(s)
    ensures Split(s) == [s]
  {
    if s != [] {
      SplitSlashFree(s[1..]);
      assert s == [s[0]] + s[1..];
    }
  }

  /** The comprehension `[r for r in pieces if r]`. */
  function NonEmpty(pieces: seq<string>): (kept: seq<string>)
    ensures forall i :: 0 <= i < |kept| ==> kept[i] != ""
    ensures forall s :: s in kept ==> s in pieces
  {
    if pieces == [] then []
    else (if pieces[0] == "" then [] else [pieces[0]]) + NonEmpty(pieces[1..])
  }

  lemma {:induction false} NonEmptyAppend(a: seq<string>, b: seq<string>)
    ensures NonEmpty(a + b) == NonEmpty(a) + NonEmpty(b)
  {
    if a == [] {
      assert a + b == b;
    } else {
      NonEmptyAppend(a[1..], b);
      assert (a + b)[0] == a[0] && (a + b)[1..] == a[1..] + b;
      var h := if a[0] == "" then [] else [a[0]];
      assert NonEmpty(a + b) == h + (NonEmpty(a[1..]) + NonEmpty(b));
      assert h + (NonEmpty(a[1..]) + NonEmpty(b)) == (h + NonEmpty(a[1..])) + NonEmpty(b);
    }
  }

  lemma {:induction false} NonEmptyKeepsSegments(segs: seq<string>)
    requires forall i :: 0 <= i < |segs| ==> segs[i] != ""
    ensures NonEmpty(segs) == segs
  {
    if segs != [] {
      NonEmptyKeepsSegments(segs[1..]);
    }
  }

  /** The non-empty `/`-separated segments of `p`, in order. */
  function Segments(p: string): (segs: seq<string>)
    ensures forall i :: 0 <= i < |segs| ==> IsSegment(segs[i])
  {
    var pieces := Split(p);
    assert forall s :: s in pieces ==> SlashFree(s);
    NonEmpty(pieces)
  }

  /** A slash before each segment, segments in order. */
  function Slashed(segs: seq<string>): string {
    if segs == [] then "" else Slashed(segs[..|segs| - 1]) + "/" + segs[|segs| - 1]
  }

  /** What non_strict_build returns. */
  function NonStrictPath(p: string): string {
    Slashed(Segments(p))
  }

  /** What strict_build returns. */
  function StrictPath(p: string): string {
    NonStrictPath(p) + "/"
  }

  /** No slash directly follows another. */
  predicate NoDoubleSlash(s: string) {
    forall i :: 0 < i < |s| && s[i - 1] == '/' ==> s[i] != '/'
  }

  lemma {:induction false} SplitSlashed(segs: seq<string>)
    requires forall i :: 0 <= i < |segs| ==> SlashFree(segs[i])
    ensures Split(Slashed(segs)) == [""] + segs
  {
    if segs != [] {
      var init, last := segs[..|segs| - 1], segs[|segs| - 1];
      SplitSlashed(init);
      SplitConcat(Slashed(init), last);
      SplitSlashFree(last);
      assert segs == init + [last];
    }
  }

  /** The segments of a built path are the segments it was built from,
      with or without the trailing slash. */
  lemma {:induction false} SegmentsOfSlashed(segs: seq<string>)
    requires forall i :: 0 <= i < |segs| ==> IsSegment(segs[i])
    ensures Segments(Slashed(segs)) == segs
    ensures Segments(Slashed(segs) + "/") == segs
  {
    SplitSlashed(segs);
    SplitConcat(Slashed(segs), "");
    assert Slashed(segs) + "/" + "" == Slashed(segs) + "/";
    NonEmptyAppend([""], segs);
    NonEmptyAppend([""] + segs, [""]);
    NonEmptyKeepsSegments(segs);
  }

  /** A built path is empty exactly when there are no segments; otherwise it
      starts with a slash, does not end with one, and has no `//`. */
  lemma {:induction false} SlashedShape(segs: seq<string>)
    requires forall i :: 0 <= i < |segs| ==> IsSegment(segs[i])
    ensures var s := Slashed(segs);
      && NoDoubleSlash(s)
      && (s == "" <==> segs == [])
      && (s != "" ==> s[0] == '/' && s[|s| - 1] != '/')
  {
    if segs != [] {
      var init, last := segs[..|segs| - 1], segs[|segs| - 1];
      SlashedShape(init);
      var u := Slashed(init);
      var s := u + "/" + last;
      assert s == Slashed(segs);
      assert last[0] != '/' && last[|last| - 1] != '/' by {
        assert last[0] in last && last[|last| - 1] in last;
      }
      forall i | 0 < i < |s| && s[i - 1] == '/'
        ensures s[i] != '/'
      {
        if i < |u| {
          assert s[i - 1] == u[i - 1] && s[i] == u[i];
        } else if i > |u| {
          assert s[i] == last[i - |u| - 1];
          assert s[i] in last;
        }
      }
    }
  }

  // ---------------------------------------------------------------------
  // The two builders

  /** strict_build: `/` before each non-empty segment, then a final `/`. */
  method StrictBuild(p: string) returns (result: string)
    ensures result == StrictPath(p)
  {
    result := "";
    var u := Segments(p);
    for i := 0 to |u|
      invariant result == Slashed(u[..i])
    {
      assert u[..i + 1][..i] == u[..i];
      result := result + "/" + u[i];
    }
    assert u[..|u|] == u;
    result := result + "/";
  }

  /** non_strict_build: `/` before each non-empty segment. */
  method NonStrictBuild(p: string) returns (result: string)
    ensures result == NonStrictPath(p)
  {
    result := "";
    var u := Segments(p);
    for i := 0 to |u|
      invariant result == Slashed(u[..i])
    {
      assert u[..i + 1][..i] == u[..i];
      result := result + "/" + u[i];
    }
    assert u[..|u|] == u;
  }

  /** A non-strict path keeps the segments of its input, is empty or starts
      and does not end with `/`, and has no `//`. */
  lemma NonStrictPathShape(p: string)
    ensures var r := NonStrictPath(p);
      && Segments(r) == Segments(p)
      && NoDoubleSlash(r)
      && (r == "" <==> Segments(p) == [])
      && (r != "" ==> r[0] == '/' && r[|r| - 1] != '/')
  {
    SegmentsOfSlashed(Segments(p));
    SlashedShape(Segments(p));
  }

  /** A strict path keeps the segments of its input, starts and ends with
      `/`, and has no `//`. */
  lemma StrictPathShape(p: string)
    ensures var r := StrictPath(p);
      && Segments(r) == Segments(p)
      && NoDoubleSlash(r)
      && r[0] == '/' && r[|r| - 1] == '/'
  {
    var u := NonStrictPath(p);
    NonStrictPathShape(p);
    SegmentsOfSlashed(Segments(p));
    var r := u + "/";
    forall i | 0 < i < |r| && r[i - 1] == '/'
      ensures r[i] != '/'
    {
      if i < |u| {
        assert r[i - 1] == u[i - 1] && r[i] == u[i];
      }
    }
  }

  /** Both builders are idempotent. */
  lemma BuildersIdempotent(p: string)
    ensures NonStrictPath(NonStrictPath(p)) == NonStrictPath(p)
    ensures StrictPath(StrictPath(p)) == StrictPath(p)
  {
    SegmentsOfSlashed(Segments(p));
  }

  /** Both builders are idempotent on every path. */
  lemma BuildersIdempotentEverywhere()
    ensures forall p :: NonStrictPath(NonStrictPath(p)) == NonStrictPath(p)
    ensures forall p :: StrictPath(StrictPath(p)) == StrictPath(p)
  {
    forall p: string
      ensures NonStrictPath(NonStrictPath(p)) == NonStrictPath(p)
      ensures StrictPath(StrictPath(p)) == StrictPath(p)
    {
      BuildersIdempotent(p);
    }
  }

  /** A slash between an empty or slash-terminated prefix and a segment makes
      no difference: `extend('/listings')` and `extend('listings')` agree. */
  lemma {:induction false} ExtraSlashIgnored(prefix: string, seg: string)
    requires prefix == "" || prefix[|prefix| - 1] == '/'
    ensures Segments(prefix + "/" + seg) == Segments(prefix + seg)
  {
    if prefix == "" {
      assert prefix + "/" + seg == "/" + seg && prefix + seg == seg;
      assert ("/" + seg)[1..] == seg;
    } else {
      var q := prefix[..|prefix| - 1];
      assert prefix == q + "/";
      assert prefix + "/" + seg == q + "/" + ("/" + seg);
      assert prefix + seg == q + "/" + seg;
      SplitConcat(q, "/" + seg);
      SplitConcat(q, seg);
      assert ("/" + seg)[1..] == seg;
      assert Split("/" + seg) == [""] + Split(seg);
      NonEmptyAppend(Split(q), Split("/" + seg));
      NonEmptyAppend(Split(q), Split(seg));
    }
  }

  /** A path of two segments is already normalised without enforcement, and
      gains only a trailing slash with it. */
  lemma TwoSegments(a: string, b: string)
    requires IsSegment(a) && IsSegment(b)
    ensures Segments("/" + a + "/" + b) == [a, b]
    ensures NonStrictPath("/" + a + "/" + b) == "/" + a + "/" + b
    ensures StrictPath("/" + a + "/" + b) == "/" + a + "/" + b + "/"
  {
    var segs := [a, b];
    assert segs[..1] == [a];
    assert [a][..0] == [];
    assert Slashed([a]) == "/" + a;
    assert Slashed(segs) == "/" + a + "/" + b;
    SegmentsOfSlashed(segs);
  }

  /** What the builders make of the empty path and of paths of one and two
      segments (`''`, `/listings`, `/listings/sessions` in the builder tests). */
  lemma BuilderExamples(a: string, b: string)
    requires IsSegment(a) && IsSegment(b)
    ensures StrictPath("") == "/" && NonStrictPath("") == ""
    ensures StrictPath("/" + a) == "/" + a + "/" && NonStrictPath("/" + a) == "/" + a
    ensures StrictPath("/" + a + "/" + b) == "/" + a + "/" + b + "/"
    ensures NonStrictPath("/" + a + "/" + b) == "/" + a + "/" + b
  {
    assert Split("") == [""];
    OneSegment(a);
    TwoSegments(a, b);
  }

  // ---------------------------------------------------------------------
  // Choosing a builder

  /** Rfc.get_build: the builder of an enforcement policy; the identity for
      the resource types. Building an already built path changes nothing,
      under every policy. */
  function GetBuild(policy: Rfc): (build: string -> string)
    ensures forall p :: build(build(p)) == build(p)
    ensures policy != Strict && policy != NonStrict ==> forall p :: build(p) == p
  {
    BuildersIdempotentEverywhere();
    match policy
    case Strict => StrictPath
    case NonStrict => NonStrictPath
    case _ => p => p
  }

  /** What each policy's builder does: the two enforcement policies keep the
      segments, drop `//`, and differ exactly in the trailing slash; every
      other policy leaves the path alone. */
  lemma BuildNormalises(policy: Rfc, p: string)
    ensures var r := GetBuild(policy)(p);
      && (policy == Strict || policy == NonStrict ==>
            Segments(r) == Segments(p) && NoDoubleSlash(r)
            && (r != "" && r[|r| - 1] == '/' <==> policy == Strict))
      && (policy != Strict && policy != NonStrict ==> r == p)
  {
    match policy
    case Strict => StrictPathShape(p);
    case NonStrict => NonStrictPathShape(p);
    case _ =>
  }

  // ---------------------------------------------------------------------
  // Leaf validation

  const StrictNeedsType := Error(TypeError, MustSetResourceType)
  const NonStrictForbidsType := Error(TypeError, NoResourceTypeWhenNonStrict)

  /** Python's `s[:-1]`. */
  function DropLast(s: string): string {
    if s == "" then "" else s[..|s| - 1]
  }

  /** The leaf validation table applied to an already built path: strict
      leaves need a resource type and a subordinate one loses its last
      character; non-strict leaves must not have one. */
  function ValidatedPath(enforce: Rfc, resType: Rfc, built: string): (r: Result<string>)
    ensures r.Err? <==> (enforce == Strict && resType == Empty) || (enforce == NonStrict && resType != Empty)
    ensures r.Err? ==> r.error.kind == TypeError
    ensures r.Ok? && enforce == Strict && resType == Sub && built != "" ==> r.value + [built[|built| - 1]] == built
    ensures r.Ok? && !(enforce == Strict && resType == Sub) ==> r.value == built
  {
    match enforce
    case Strict =>
      if resType == Empty then Err(StrictNeedsType)
      else if resType == Sub then Ok(DropLast(built))
      else Ok(built)
    case NonStrict =>
      if resType != Empty then Err(NonStrictForbidsType) else Ok(built)
    case _ => Ok(built)
  }

  /** The path of the leaf `seg` under a resource at `parent`, or the error
      leaf validation raises. */
  function LeafPath(parent: string, enforce: Rfc, seg: string, resType: Rfc): Result<string> {
    ValidatedPath(enforce, resType, GetBuild(enforce)(parent + seg))
  }

  /** A strict subordinate leaf is the non-strict path: the trailing slash
      is the character removed. */
  lemma StrictSubLeaf(parent: string, seg: string)
    ensures LeafPath(parent, Strict, seg, Sub) == Ok(NonStrictPath(parent + seg))
  {
  }

  /** A strict collection leaf keeps its trailing slash; a non-strict leaf
      never ends with a slash. */
  lemma LeafTrailingSlash(parent: string, seg: string)
    ensures var r := LeafPath(parent, Strict, seg, Col);
      r.Ok? && r.value[|r.value| - 1] == '/' && NoDoubleSlash(r.value)
    ensures var r := LeafPath(parent, NonStrict, seg, Empty);
      r.Ok? && (r.value == "" || r.value[|r.value| - 1] != '/') && NoDoubleSlash(r.value)
  {
    StrictPathShape(parent + seg);
    NonStrictPathShape(parent + seg);
  }

  /** A strict collection leaf `/b` under `/a/`: the slash before `b` is
      dropped and the trailing slash kept (`/listings/` + `/sessions`). */
  lemma StrictCollectionLeaf(a: string, b: string)
    requires IsSegment(a) && IsSegment(b)
    ensures LeafPath("/" + a + "/", Strict, "/" + b, Col) == Ok("/" + a + "/" + b + "/")
  {
    TwoSegments(a, b);
    ExtraSlashIgnored("/" + a + "/", b);
    assert "/" + a + "/" + "/" + b == ("/" + a + "/") + ("/" + b);
    assert ("/" + a + "/") + b == "/" + a + "/" + b;
  }

  /** A strict subordinate leaf `b` under `/a/` has no trailing slash
      (`/listings/` + `pk`). */
  lemma StrictSubordinateLeaf(a: string, b: string)
    requires IsSegment(a) && IsSegment(b)
    ensures LeafPath("/" + a + "/", Strict, b, Sub) == Ok("/" + a + "/" + b)
  {
    TwoSegments(a, b);
    assert ("/" + a + "/") + b == "/" + a + "/" + b;
    StrictSubLeaf("/" + a + "/", b);
  }

  /** A non-strict leaf `/b` under `/a` joins the two, and the two rejected
      combinations: a strict leaf without a type, a non-strict one with. */
  lemma NonStrictAndRejectedLeaves(a: string, b: string)
    requires IsSegment(a) && IsSegment(b)
    ensures LeafPath("/" + a, NonStrict, "/" + b, Empty) == Ok("/" + a + "/" + b)
    ensures LeafPath("/" + a + "/", Strict, "/" + b, Empty) == Err(StrictNeedsType)
    ensures LeafPath("/" + a, NonStrict, b, Col) == Err(NonStrictForbidsType)
  {
    TwoSegments(a, b);
    assert ("/" + a) + ("/" + b) == "/" + a + "/" + b;
  }

  /** A single segment, bare or slashed on either side, builds to `/seg`
      without enforcement and to `/seg/` with it. */
  lemma OneSegment(seg: string)
    requires IsSegment(seg)
    ensures NonStrictPath(seg) == "/" + seg && StrictPath(seg) == "/" + seg + "/"
    ensures NonStrictPath("/" + seg) == "/" + seg
    ensures NonStrictPath("/" + seg + "/") == "/" + seg
  {
    assert Slashed([seg]) == "/" + seg by {
      assert [seg][..0] == [];
    }
    SegmentsOfSlashed([seg]);
    SplitSlashFree(seg);
    assert NonEmpty([seg]) == [seg] + NonEmpty([]);
    assert Segments(seg) == [seg];
  }

  // ---------------------------------------------------------------------
  // Resource

  /** A path with its enforcement policy and resource type. The path is
      normalised by Build, once, by every operation that makes a Resource. */
  class Resource {
    var path: string
    const enforce: Rfc
    const resType: Rfc

    /** `Resource(path, enforce=…, res_type=…)`: not yet built. */
    constructor (path: string, enforce: Option<Rfc>, resType: Option<Rfc>)
      ensures this.path == path
      ensures this.enforce == enforce.GetOr(NonStrict)
      ensures this.resType == resType.GetOr(Empty)
    {
      this.path := path;
      this.enforce := enforce.GetOr(NonStrict);
      this.resType := resType.GetOr(Empty);
    }

    /** The root resource, built from `/`. */
    static method CreateBase(enforce: Option<Rfc>) returns (base: Resource)
      ensures fresh(base)
      ensures base.enforce == enforce.GetOr(NonStrict) && base.resType == Empty
      ensures base.path == GetBuild(base.enforce)("/")
    {
      base := new Resource("/", enforce, None);
      base.Build();
    }

    /** Replace the path by its normal form under this resource's policy. */
    method Build()
      modifies this`path
      ensures path == GetBuild(enforce)(old(path))
    {
      match enforce
      case Strict => path := StrictBuild(path);
      case NonStrict => path := NonStrictBuild(path);
      case _ =>
    }

    /** `self + other`: the paths concatenated and built under `other`'s
        policy and resource type (the right operand wins). */
    method Add(other: Resource) returns (sum: Resource)
      ensures fresh(sum)
      ensures sum.enforce == other.enforce && sum.resType == other.resType
      ensures sum.path == GetBuild(other.enforce)(path + other.path)
    {
      sum := new Resource(path + other.path, Some(other.enforce), Some(other.resType));
      sum.Build();
    }

    /** A child resource under the given policy, or this one's. */
    method Extend(seg: string, enforce: Option<Rfc>) returns (ext: Resource)
      ensures fresh(ext)
      ensures ext.enforce == enforce.GetOr(this.enforce) && ext.resType == Empty
      ensures ext.path == GetBuild(ext.enforce)(path + seg)
    {
      var policy := if enforce.None? then this.enforce else enforce.value;
      ext := new Resource(path + seg, Some(policy), None);
      ext.Build();
    }

    /** A terminal resource: built under this policy, then validated. */
    method Leaf(seg: string, resType: Option<Rfc>) returns (r: Result<Resource>)
      ensures var outcome := LeafPath(path, enforce, seg, resType.GetOr(Empty));
        && (r.Ok? <==> outcome.Ok?)
        && (r.Err? ==> r.error == outcome.error)
        && (r.Ok? ==>
              (fresh(r.value) && r.value.path == outcome.value
               && r.value.enforce == enforce && r.value.resType == resType.GetOr(Empty)))
    {
      var leaf := new Resource(path + seg, Some(enforce), resType);
      leaf.Build();
      var err := leaf.ValidateLeaf();
      if err.Some? {
        return Err(err.value);
      }
      return Ok(leaf);
    }

    /** _validate_leaf: dispatch on the enforcement policy. */
    method ValidateLeaf() returns (err: Option<Error>)
      modifies this`path
      ensures var v := ValidatedPath(enforce, resType, old(path));
        && (err.Some? <==> v.Err?)
        && (v.Err? ==> err.value == v.error && path == old(path))
        && (v.Ok? ==> path == v.value)
    {
      match enforce
      case Strict => err := ValidateStrict(resType);
      case NonStrict => err := ValidateNonStrict(resType);
      case _ => err := None;
    }

    /** _validate_strict: a resource type is required; a subordinate leaf
        loses its last character. */
    method ValidateStrict(resType: Rfc) returns (err: Option<Error>)
      modifies this`path
      ensures resType == Empty ==> err == Some(StrictNeedsType)
      ensures resType != Empty ==> err == None
      ensures resType == Sub ==> path == DropLast(old(path))
      ensures resType != Sub ==> path == old(path)
    {
      if resType == Empty {
        return Some(StrictNeedsType);
      }
      if resType == Sub {
        path := DropLast(path);
      }
      return None;
    }

    /** _validate_non_strict: no resource type may be given. */
    static function ValidateNonStrict(resType: Rfc): (err: Option<Error>)
      ensures err.Some? <==> resType != Empty
      ensures err.Some? ==> err.value.kind == TypeError
    {
      if resType != Empty then Some(NonStrictForbidsType) else None
    }
  }

  /** Resource.create_base gives `''` under the default policy and `/`
      under the strict one. */
  lemma CreateBasePaths()
    ensures GetBuild(Option<Rfc>.None.GetOr(NonStrict))("/") == ""
    ensures GetBuild(Strict)("/") == "/"
  {
    assert "/" == "" + "/" + "";
    SplitConcat("", "");
  }
}
