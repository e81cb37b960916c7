/**
 * The REST dispatch of rest.go, generic over opaque resources.
 *
 * A resource is known by an identity and the interfaces it implements
 * (IndexResource, QueryResource, GetResource, PostResource,
 * MutableResource). The resources' own methods (Index, GetREST, PostREST,
 * ApplyREST) and the request's decoders and response writer are functions
 * supplied with the API and the request; the model checks the decisions
 * rest.go takes around them.
 */
module Rest {
  import opened Wrappers
  import Text

  const StatusNotFound := 404
  const StatusMethodNotAllowed := 405
  const StatusUnsupportedMediaType := 415
  /** RFC 4918, section 11.2 */
  const StatusUnprocessableEntity := 422
  const StatusInternalServerError := 500
  const StatusNotImplemented := 501

  const JsonContentType := "application/json"

  /**
   * A Go `error` as the package sees it: its own `Error{Status, Err}`, where
   * `cause` is the message of `Err` or None for a nil `Err`, or any other
   * error, known by its message.
   */
  datatype Failure =
    | HttpError(status: int, cause: Option<string>)
    | OtherError(message: string)

  /**
   * `err.Error()`: for the package's `Error`, "HTTP <status>" when `Err` is
   * nil and `Err`'s message otherwise.
   */
  function ErrorText(f: Failure): (r: string)
    ensures f.HttpError? && f.cause.None? ==>
      |r| > 5 && r[..5] == "HTTP " && Text.ParseInt(r[5..]) == Some(f.status)
    ensures f.HttpError? && f.cause.Some? ==> r == f.cause.value
    ensures f.OtherError? ==> r == f.message
  {
    match f
    case HttpError(status, None) =>
      Text.IntToDecimalRoundTrip(status);
      var r := "HTTP " + Text.IntToDecimal(status);
      assert r[5..] == Text.IntToDecimal(status);
      r
    case HttpError(_, Some(m)) => m
    case OtherError(m) => m
  }

  /** `Errorf(status, f, args...)`, with the formatted text given. */
  function Errorf(status: int, text: string): (r: Failure)
    ensures r.HttpError? && r.status == status && r.cause.Some?
    ensures ErrorText(r) == text
  {
    HttpError(status, Some(text))
  }

  /** `RequestError(err)`: status 422, keeping `err`'s message. */
  function RequestError(err: Failure): (r: Failure)
    ensures r.HttpError? && r.status == StatusUnprocessableEntity && r.cause.Some?
    ensures ErrorText(r) == ErrorText(err)
  {
    HttpError(StatusUnprocessableEntity, Some(ErrorText(err)))
  }

  /** `RequestErrorf(f, args...)`, with the formatted text given. */
  function RequestErrorf(text: string): (r: Failure)
    ensures r.HttpError? && r.status == StatusUnprocessableEntity && r.cause.Some?
    ensures ErrorText(r) == text
  {
    Errorf(StatusUnprocessableEntity, text)
  }

  /**
   * `readRequest`: only a Content-Type of exactly "application/json" is
   * decoded; `decoded` is what the JSON decoder reports for the body.
   */
  function ReadRequest(contentType: string, decoded: Option<Failure>): (r: Option<Failure>)
    ensures contentType != JsonContentType ==>
      r.Some? && r.value.HttpError? && r.value.status == StatusUnsupportedMediaType &&
      ErrorText(r.value) == "Unknown Content-Type: " + contentType
    ensures contentType == JsonContentType ==> (r.None? <==> decoded.None?)
    ensures contentType == JsonContentType && decoded.Some? ==>
      r.Some? && r.value.HttpError? && r.value.status == StatusUnprocessableEntity &&
      ErrorText(r.value) == ErrorText(decoded.value)
  {
    if contentType == JsonContentType then
      match decoded
      case Some(e) => Some(RequestError(e))
      case None => None
    else
      Some(Errorf(StatusUnsupportedMediaType, "Unknown Content-Type: " + contentType))
  }

  /** A resource and the interfaces it implements. */
  datatype Resource = Resource(
    id: nat,
    indexable: bool,
    queryable: bool,
    gettable: bool,
    postable: bool,
    mutable: bool)

  /** What `IndexResource.Index(name)` returns: a resource, nil, or an error. */
  datatype Lookup = Found(next: Resource) | Nil | LookupError(err: Failure)

  /** What `GetREST` or `PostREST` returns: a resource, nil, or an error. */
  datatype Call = Returned(value: Resource) | ReturnedNil | CallError(err: Failure)

  /** `API{root}` together with the methods of the resources it reaches. */
  datatype Api = Api(
    root: Resource,
    index: (Resource, string) -> Lookup,
    getREST: Resource -> Call,
    postREST: Resource -> Call,
    applyREST: Resource -> Option<Failure>)

  /**
   * A request: its method, URL path and Content-Type, what the query
   * decoder and the JSON body decoder report for a resource, and what
   * writing a resource as the response reports.
   */
  datatype Request = Request(
    httpMethod: string,
    path: string,
    contentType: string,
    decodeQuery: Resource -> Option<Failure>,
    decodeBody: Resource -> Option<Failure>,
    writeResponse: Resource -> Option<Failure>)

  /** The result of walking a path: the resources met, or where and why it stopped. */
  datatype Walk = Reached(path: seq<Resource>) | Stopped(at: Option<Resource>, err: Failure)

  /** Prefixes the resources met before `w` started. */
  function Then(visited: seq<Resource>, w: Walk): Walk
  {
    match w
    case Reached(p) => Reached(visited + p)
    case Stopped(_, _) => w
  }

  /** The resources reached by looking up each name in turn, starting at `from`. */
  function WalkFrom(api: Api, from: Resource, names: seq<string>): Walk
    decreases |names|
  {
    if names == [] then Reached([])
    else if !from.indexable then Stopped(Some(from), HttpError(StatusNotFound, None))
    else
      match api.index(from, names[0])
      case LookupError(e) => Stopped(Some(from), e)
      case Nil => Stopped(None, HttpError(StatusNotFound, None))
      case Found(next) => Then([next], WalkFrom(api, next, names[1..]))
  }

  /** Where a walk from `root` over `path` ends. */
  function Last(root: Resource, path: seq<Resource>): Resource
  {
    if path == [] then root else path[|path| - 1]
  }

  /** `next` is what looking up `name` in the indexable resource `prev` gives. */
  predicate LookedUp(api: Api, prev: Resource, name: string, next: Resource)
  {
    prev.indexable && api.index(prev, name) == Found(next)
  }

  /**
   * A successful walk takes one step per name, each a successful lookup of
   * that name in the resource reached before it.
   */
  lemma {:induction false} WalkLooksUpEachName(api: Api, from: Resource, names: seq<string>)
    requires WalkFrom(api, from, names).Reached?
    ensures var p := WalkFrom(api, from, names).path;
      |p| == |names| &&
      forall k :: 0 <= k < |names| ==> LookedUp(api, ([from] + p)[k], names[k], p[k])
    decreases |names|
  {
    if names != [] {
      var next := api.index(from, names[0]).next;
      WalkLooksUpEachName(api, next, names[1..]);
      var rest := WalkFrom(api, next, names[1..]).path;
      var p := WalkFrom(api, from, names).path;
      assert p == [next] + rest;
      forall k | 0 <= k < |names|
        ensures LookedUp(api, ([from] + p)[k], names[k], p[k])
      {
        if k == 0 {
          assert from.indexable && api.index(from, names[0]) == Found(next);
        } else {
          assert names[k] == names[1..][k - 1];
          assert p[k] == rest[k - 1];
          assert ([from] + p)[k] == ([next] + rest)[k - 1];
        }
      }
    }
  }

  /** A failed walk that stopped at no resource met a nil lookup result: 404. */
  lemma {:induction false} WalkStoppedAtNil(api: Api, from: Resource, names: seq<string>)
    requires WalkFrom(api, from, names).Stopped?
    ensures WalkFrom(api, from, names).at.None? ==>
      WalkFrom(api, from, names).err == HttpError(StatusNotFound, None)
    ensures WalkFrom(api, from, names).at.Some? && !WalkFrom(api, from, names).at.value.indexable ==>
      WalkFrom(api, from, names).err == HttpError(StatusNotFound, None)
    decreases |names|
  {
    if names != [] && from.indexable && api.index(from, names[0]).Found? {
      WalkStoppedAtNil(api, api.index(from, names[0]).next, names[1..]);
    }
  }

  /**
   * Where a walk stops, from its cause: if the first k names lead to `r`,
   * then a non-indexable `r` stops the walk at `r` with 404, an error from
   * looking up name k in `r` stops it at `r` with that error unchanged, and
   * a nil lookup stops it at no resource with 404.
   */
  lemma {:induction false} WalkStopsAt(api: Api, from: Resource, names: seq<string>, k: nat)
    requires k < |names| && WalkFrom(api, from, names[..k]).Reached?
    ensures var r := Last(from, WalkFrom(api, from, names[..k]).path);
      && (!r.indexable ==>
            WalkFrom(api, from, names) == Stopped(Some(r), HttpError(StatusNotFound, None)))
      && (r.indexable && api.index(r, names[k]).LookupError? ==>
            WalkFrom(api, from, names) == Stopped(Some(r), api.index(r, names[k]).err))
      && (r.indexable && api.index(r, names[k]).Nil? ==>
            WalkFrom(api, from, names) == Stopped(None, HttpError(StatusNotFound, None)))
    decreases k
  {
    if k == 0 {
      assert names[..0] == [];
    } else {
      var prefix := names[..k];
      assert prefix[0] == names[0] && prefix[1..] == names[1..][..k - 1];
      var next := api.index(from, names[0]).next;
      var rest := WalkFrom(api, next, names[1..][..k - 1]);
      assert WalkFrom(api, from, prefix) == Then([next], rest);
      WalkStopsAt(api, next, names[1..], k - 1);
      assert Last(from, [next] + rest.path) == Last(next, rest.path);
    }
  }

  lemma ThenThen(u: seq<Resource>, v: seq<Resource>, w: Walk)
    ensures Then(u, Then(v, w)) == Then(u + v, w)
  {
    if w.Reached? {
      assert u + (v + w.path) == (u + v) + w.path;
    }
  }

  /** The mutable resources of `rs`, in order. */
  function Mutables(rs: seq<Resource>): seq<Resource>
    decreases |rs|
  {
    if rs == [] then []
    else (if rs[0].mutable then [rs[0]] else []) + Mutables(rs[1..])
  }

  /** Mutables keeps exactly the mutable resources. */
  lemma {:induction false} MutablesExact(rs: seq<Resource>)
    ensures forall r :: r in Mutables(rs) <==> r in rs && r.mutable
    ensures |Mutables(rs)| <= |rs|
    decreases |rs|
  {
    if rs != [] {
      MutablesExact(rs[1..]);
      assert forall r :: r in rs <==> r == rs[0] || r in rs[1..];
    }
  }

  lemma {:induction false} MutablesAppend(rs: seq<Resource>, r: Resource)
    ensures Mutables(rs + [r]) == Mutables(rs) + (if r.mutable then [r] else [])
    decreases |rs|
  {
    if rs == [] {
      assert [] + [r] == [r];
    } else {
      MutablesAppend(rs[1..], r);
      assert (rs + [r])[1..] == rs[1..] + [r];
    }
  }

  /** `s` in reverse order. */
  function Reversed<T>(s: seq<T>): (r: seq<T>)
    ensures |r| == |s|
    decreases |s|
  {
    if s == [] then [] else Reversed(s[1..]) + [s[0]]
  }

  lemma {:induction false} ReversedIndex<T>(s: seq<T>, k: nat)
    requires k < |s|
    ensures Reversed(s)[k] == s[|s| - 1 - k]
    decreases |s|
  {
    if k < |s| - 1 {
      ReversedIndex(s[1..], k);
    } else if |s| > 1 {
      ReversedIndex(s[1..], 0);
    }
  }

  /** Reversing is a permutation. */
  lemma {:induction false} ReversedPermutation<T>(s: seq<T>)
    ensures multiset(Reversed(s)) == multiset(s)
    decreases |s|
  {
    if s != [] {
      ReversedPermutation(s[1..]);
      assert s == [s[0]] + s[1..];
    }
  }

  /** The swap loop of `index`: reverses `a` in place. */
  method ReverseInPlace<T>(a: array<T>)
    modifies a
    ensures a[..] == Reversed(old(a[..]))
    ensures multiset(a[..]) == multiset(old(a[..]))
  {
    ghost var was := a[..];
    var i, j := 0, a.Length - 1;
    while i < j
      invariant 0 <= i <= a.Length && j == a.Length - 1 - i
      invariant forall k :: 0 <= k < i ==> a[k] == was[a.Length - 1 - k]
      invariant forall k :: j < k < a.Length ==> a[k] == was[a.Length - 1 - k]
      invariant forall k :: i <= k <= j ==> a[k] == was[k]
    {
      a[i], a[j] := a[j], a[i];
      i, j := i + 1, j - 1;
    }
    forall k | 0 <= k < a.Length
      ensures a[k] == Reversed(was)[k]
    {
      ReversedIndex(was, k);
    }
    assert a[..] == Reversed(was);
    ReversedPermutation(was);
  }

  /**
   * `API.index`: walks the `/`-separated segments of `path` from the root.
   * On success it returns the resource reached and the mutable resources on
   * the path, root included, deepest first; on failure the resource where
   * the walk stopped (none for a nil lookup) and the walk's error.
   */
  method Index(api: Api, path: string) returns (res: Option<Resource>, mutables: seq<Resource>, err: Option<Failure>)
    ensures match WalkFrom(api, api.root, Text.Split(path, '/'))
      case Reached(p) =>
        err.None? && res == Some(Last(api.root, p)) && mutables == Reversed(Mutables([api.root] + p))
      case Stopped(at, e) =>
        err == Some(e) && res == at && mutables == []
  {
    var names := Text.Split(path, '/');
    var resource := api.root;
    var collected: seq<Resource> := [];
    if resource.mutable {
      collected := collected + [resource];
    }
    assert Mutables([api.root]) == collected;
    ghost var visited: seq<Resource> := [];
    var i := 0;
    while i < |names|
      invariant 0 <= i <= |names|
      invariant resource == Last(api.root, visited)
      invariant collected == Mutables([api.root] + visited)
      invariant WalkFrom(api, api.root, names) == Then(visited, WalkFrom(api, resource, names[i..]))
    {
      if !resource.indexable {
        return Some(resource), [], Some(HttpError(StatusNotFound, None));
      }
      match api.index(resource, names[i])
      case LookupError(e) =>
        return Some(resource), [], Some(e);
      case Nil =>
        return None, [], Some(HttpError(StatusNotFound, None));
      case Found(next) =>
        assert names[i..][1..] == names[i + 1..];
        ThenThen(visited, [next], WalkFrom(api, next, names[i + 1..]));
        MutablesAppend([api.root] + visited, next);
        assert [api.root] + visited + [next] == [api.root] + (visited + [next]);
        resource := next;
        visited := visited + [next];
        if resource.mutable {
          collected := collected + [resource];
        }
        i := i + 1;
    }
    assert names[i..] == [];
    assert visited + [] == visited;
    var a := new Resource[|collected|](k requires 0 <= k < |collected| => collected[k]);
    assert a[..] == collected;
    ReverseInPlace(a);
    return Some(resource), a[..], None;
  }

  /** The resources `apply` notifies: the target if there is one, then the parents in order. */
  function Targets(target: Option<Resource>, parents: seq<Resource>): seq<Resource>
  {
    (if target.Some? then [target.value] else []) + parents
  }

  /**
   * Calls `ApplyREST` on `rs` in order up to the first failure: that
   * failure (or None) and the resources called.
   */
  function ApplyAll(api: Api, rs: seq<Resource>): (Option<Failure>, seq<Resource>)
    decreases |rs|
  {
    if rs == [] then (None, [])
    else
      match api.applyREST(rs[0])
      case Some(e) => (Some(e), [rs[0]])
      case None =>
        var rest := ApplyAll(api, rs[1..]);
        (rest.0, [rs[0]] + rest.1)
  }

  /**
   * ApplyAll calls a prefix of `rs`; every call but the last succeeded; it
   * fails exactly with the error of the last call it made, and when nothing
   * fails every resource was called.
   */
  lemma {:induction false} ApplyAllStopsAtFirstFailure(api: Api, rs: seq<Resource>)
    ensures var (err, called) := ApplyAll(api, rs);
      && called <= rs
      && (forall k :: 0 <= k < |called| - 1 ==> api.applyREST(called[k]).None?)
      && (err.None? ==> called == rs && forall k :: 0 <= k < |rs| ==> api.applyREST(rs[k]).None?)
      && (err.Some? ==> called != [] && api.applyREST(called[|called| - 1]) == err)
    decreases |rs|
  {
    if rs != [] && api.applyREST(rs[0]).None? {
      ApplyAllStopsAtFirstFailure(api, rs[1..]);
      var rest := ApplyAll(api, rs[1..]);
      var called := [rs[0]] + rest.1;
      assert ApplyAll(api, rs) == (rest.0, called);
      forall k | 0 <= k < |called| - 1
        ensures api.applyREST(called[k]).None?
      {
        if k > 0 {
          assert called[k] == rest.1[k - 1];
        }
      }
      if rest.0.None? {
        assert rs == [rs[0]] + rs[1..];
      } else {
        assert called[|called| - 1] == rest.1[|rest.1| - 1];
      }
    }
  }

  /** Unfolds ApplyAll over a first resource whose ApplyREST succeeds. */
  lemma ApplyAllSucceeded(api: Api, r: Resource, rs: seq<Resource>)
    requires api.applyREST(r).None?
    ensures ApplyAll(api, [r] + rs).0 == ApplyAll(api, rs).0
    ensures ApplyAll(api, [r] + rs).1 == [r] + ApplyAll(api, rs).1
  {
    assert ([r] + rs)[1..] == rs;
  }

  /**
   * `API.apply`: notifies the target first, then its parents, and stops at
   * the first error. `called` is the resources whose ApplyREST ran.
   */
  method Apply(api: Api, target: Option<Resource>, parents: seq<Resource>) returns (err: Option<Failure>, called: seq<Resource>)
    ensures err == ApplyAll(api, Targets(target, parents)).0
    ensures called == ApplyAll(api, Targets(target, parents)).1
  {
    called := [];
    if target.Some? {
      called := [target.value];
      err := api.applyREST(target.value);
      if err.Some? {
        return;
      }
      ApplyAllSucceeded(api, target.value, parents);
    } else {
      assert Targets(target, parents) == parents;
    }
    assert parents[0..] == parents;
    for i := 0 to |parents|
      invariant ApplyAll(api, Targets(target, parents)).0 == ApplyAll(api, parents[i..]).0
      invariant ApplyAll(api, Targets(target, parents)).1 == called + ApplyAll(api, parents[i..]).1
    {
      assert parents[i..] == [parents[i]] + parents[i + 1..];
      err := api.applyREST(parents[i]);
      if err.Some? {
        called := called + [parents[i]];
        return;
      }
      ApplyAllSucceeded(api, parents[i], parents[i + 1..]);
      called := called + [parents[i]];
    }
    err := None;
    assert called + [] == called;
  }

  /** How a request ends inside `handle`: a resource written as the response, or an error. */
  datatype Outcome = Served(body: Resource) | Failed(err: Failure)

  /** `readQuery`: a query decoding error becomes a 422. */
  function ReadQuery(req: Request, resource: Resource): Option<Failure>
  {
    match req.decodeQuery(resource)
    case Some(e) => Some(RequestError(e))
    case None => None
  }

  /** `writeResponse` of `resource`. */
  function Respond(req: Request, resource: Resource): Outcome
  {
    match req.writeResponse(resource)
    case Some(e) => Failed(e)
    case None => Served(resource)
  }

  /**
   * What `handle` does with a request: its outcome and the resources whose
   * ApplyREST it called.
   */
  function Handling(api: Api, req: Request): (r: (Outcome, seq<Resource>))
    ensures req.httpMethod != "POST" ==> r.1 == []
    ensures r.0.Served? ==> req.httpMethod == "GET" || req.httpMethod == "POST"
  {
    match WalkFrom(api, api.root, Text.Split(req.path, '/'))
    case Stopped(_, e) => (Failed(e), [])
    case Reached(p) =>
      var resource := Last(api.root, p);
      var parents := Reversed(Mutables([api.root] + p));
      if resource.queryable && ReadQuery(req, resource).Some? then
        (Failed(ReadQuery(req, resource).value), [])
      else if req.httpMethod == "GET" then
        if !resource.gettable then (Failed(HttpError(StatusMethodNotAllowed, None)), [])
        else
          match api.getREST(resource)
          case CallError(e) => (Failed(e), [])
          case ReturnedNil => (Failed(HttpError(StatusNotFound, None)), [])
          case Returned(ret) => (Respond(req, ret), [])
      else if req.httpMethod == "POST" then
        if !resource.postable then (Failed(HttpError(StatusMethodNotAllowed, None)), [])
        else
          match api.postREST(resource)
          case CallError(e) => (Failed(e), [])
          case ReturnedNil => (Failed(HttpError(StatusNotFound, None)), [])
          case Returned(ret) =>
            match ReadRequest(req.contentType, req.decodeBody(ret))
            case Some(e) => (Failed(e), [])
            case None =>
              var (err, called) := ApplyAll(api, Targets(if ret.mutable then Some(ret) else None, parents));
              if err.Some? then (Failed(err.value), called) else (Respond(req, ret), called)
      else
        (Failed(HttpError(StatusNotImplemented, None)), [])
  }

  /** `API.handle`: index, query decoding, then the switch on the request method. */
  method Handle(api: Api, req: Request) returns (outcome: Outcome, applied: seq<Resource>)
    ensures (outcome, applied) == Handling(api, req)
  {
    var found, mutables, err := Index(api, req.path);
    if err.Some? {
      return Failed(err.value), [];
    }
    var resource := found.value;
    applied := [];
    if resource.queryable {
      var queryErr := ReadQuery(req, resource);
      if queryErr.Some? {
        return Failed(queryErr.value), [];
      }
    }
    if req.httpMethod == "GET" {
      if !resource.gettable {
        return Failed(HttpError(StatusMethodNotAllowed, None)), [];
      }
      match api.getREST(resource) {
        case CallError(e) =>
          return Failed(e), [];
        case ReturnedNil =>
          return Failed(HttpError(StatusNotFound, None)), [];
        case Returned(ret) =>
          resource := ret;
      }
    } else if req.httpMethod == "POST" {
      if !resource.postable {
        return Failed(HttpError(StatusMethodNotAllowed, None)), [];
      }
      match api.postREST(resource) {
        case CallError(e) =>
          return Failed(e), [];
        case ReturnedNil =>
          return Failed(HttpError(StatusNotFound, None)), [];
        case Returned(ret) =>
          var readErr := ReadRequest(req.contentType, req.decodeBody(ret));
          if readErr.Some? {
            return Failed(readErr.value), [];
          }
          resource := ret;
      }
      var target := if resource.mutable then Some(resource) else None;
      var applyErr;
      applyErr, applied := Apply(api, target, mutables);
      if applyErr.Some? {
        return Failed(applyErr.value), applied;
      }
    } else {
      return Failed(HttpError(StatusNotImplemented, None)), [];
    }
    outcome := Respond(req, resource);
  }

  /** What `ServeHTTP` sends: the written resource, or an error page. */
  datatype Reply = Json(body: Resource) | ErrorPage(status: int, text: string)

  /**
   * `API.ServeHTTP`: a package `Error` keeps its status, any other error is
   * a 500; the page carries the error's message, except that an `Error`
   * with a nil `Err` sends an empty body instead of its "HTTP <status>" text.
   */
  function ServeHTTP(outcome: Outcome): (r: Reply)
    ensures outcome.Served? ==> r == Json(outcome.body)
    ensures outcome.Failed? && outcome.err.OtherError? ==>
      r == ErrorPage(StatusInternalServerError, ErrorText(outcome.err))
    ensures outcome.Failed? && outcome.err.HttpError? ==>
      r.ErrorPage? && r.status == outcome.err.status
    ensures outcome.Failed? && outcome.err.HttpError? && outcome.err.cause.Some? ==>
      r.text == ErrorText(outcome.err)
    ensures outcome.Failed? && outcome.err.HttpError? && outcome.err.cause.None? ==>
      r.text == ""
  {
    match outcome
    case Served(body) => Json(body)
    case Failed(OtherError(m)) => ErrorPage(StatusInternalServerError, m)
    case Failed(HttpError(status, Some(m))) => ErrorPage(status, m)
    case Failed(HttpError(status, None)) => ErrorPage(status, "")
  }

  /** The resource a request's path leads to, when the walk succeeds. */
  function Target(api: Api, req: Request): Option<Resource>
  {
    match WalkFrom(api, api.root, Text.Split(req.path, '/'))
    case Reached(p) => Some(Last(api.root, p))
    case Stopped(_, _) => None
  }

  /** The path resolved and its query (if it takes one) decoded: `handle` reaches its method switch. */
  predicate Dispatched(api: Api, req: Request)
  {
    Target(api, req).Some? &&
    !(Target(api, req).value.queryable && ReadQuery(req, Target(api, req).value).Some?)
  }

  /**
   * A path whose first k segments lead to an indexable resource in which
   * looking up segment k returns nil is answered 404 with an empty body.
   */
  lemma NilLookupIsNotFound(api: Api, req: Request, k: nat)
    requires var names := Text.Split(req.path, '/');
      && k < |names| && WalkFrom(api, api.root, names[..k]).Reached?
      && var r := Last(api.root, WalkFrom(api, api.root, names[..k]).path);
         r.indexable && api.index(r, names[k]).Nil?
    ensures ServeHTTP(Handling(api, req).0) == ErrorPage(StatusNotFound, "")
    ensures Handling(api, req).1 == []
  {
    WalkStopsAt(api, api.root, Text.Split(req.path, '/'), k);
  }

  /**
   * A path whose first k segments lead to a resource that is not an
   * IndexResource is answered 404 with an empty body.
   */
  lemma NonIndexableIsNotFound(api: Api, req: Request, k: nat)
    requires var names := Text.Split(req.path, '/');
      && k < |names| && WalkFrom(api, api.root, names[..k]).Reached?
      && !Last(api.root, WalkFrom(api, api.root, names[..k]).path).indexable
    ensures ServeHTTP(Handling(api, req).0) == ErrorPage(StatusNotFound, "")
    ensures Handling(api, req).1 == []
  {
    WalkStopsAt(api, api.root, Text.Split(req.path, '/'), k);
  }

  /**
   * An error from `Index` on the path is what `handle` returns, unchanged,
   * and so what ServeHTTP answers with.
   */
  lemma LookupErrorIsPropagated(api: Api, req: Request, k: nat)
    requires var names := Text.Split(req.path, '/');
      && k < |names| && WalkFrom(api, api.root, names[..k]).Reached?
      && var r := Last(api.root, WalkFrom(api, api.root, names[..k]).path);
         r.indexable && api.index(r, names[k]).LookupError?
    ensures var names := Text.Split(req.path, '/');
      var r := Last(api.root, WalkFrom(api, api.root, names[..k]).path);
      && Handling(api, req).0 == Failed(api.index(r, names[k]).err)
      && Handling(api, req).1 == []
  {
    WalkStopsAt(api, api.root, Text.Split(req.path, '/'), k);
  }

  /** Any method other than GET and POST is answered 501 with an empty body. */
  lemma OtherMethodIsNotImplemented(api: Api, req: Request)
    requires Dispatched(api, req)
    requires req.httpMethod != "GET" && req.httpMethod != "POST"
    ensures ServeHTTP(Handling(api, req).0) == ErrorPage(StatusNotImplemented, "")
    ensures Handling(api, req).1 == []
  {
  }

  /** GET on a resource that is not a GetResource, or POST on one that is not a PostResource, is a 405. */
  lemma UnsupportedInterfaceIsMethodNotAllowed(api: Api, req: Request)
    requires Dispatched(api, req)
    requires || (req.httpMethod == "GET" && !Target(api, req).value.gettable)
             || (req.httpMethod == "POST" && !Target(api, req).value.postable)
    ensures ServeHTTP(Handling(api, req).0) == ErrorPage(StatusMethodNotAllowed, "")
    ensures Handling(api, req).1 == []
  {
  }

  /** A nil result from GetREST or PostREST is a 404. */
  lemma NilResultIsNotFound(api: Api, req: Request)
    requires Dispatched(api, req)
    requires || (req.httpMethod == "GET" && Target(api, req).value.gettable &&
                 api.getREST(Target(api, req).value).ReturnedNil?)
             || (req.httpMethod == "POST" && Target(api, req).value.postable &&
                 api.postREST(Target(api, req).value).ReturnedNil?)
    ensures ServeHTTP(Handling(api, req).0) == ErrorPage(StatusNotFound, "")
    ensures Handling(api, req).1 == []
  {
  }

  /**
   * A POST whose body is not "application/json" is a 415 naming the
   * Content-Type, and nothing is applied.
   */
  lemma WrongContentTypeIsUnsupported(api: Api, req: Request)
    requires Dispatched(api, req)
    requires req.httpMethod == "POST" && Target(api, req).value.postable
    requires api.postREST(Target(api, req).value).Returned?
    requires req.contentType != JsonContentType
    ensures ServeHTTP(Handling(api, req).0) ==
      ErrorPage(StatusUnsupportedMediaType, "Unknown Content-Type: " + req.contentType)
    ensures Handling(api, req).1 == []
  {
  }

  /**
   * A POST that reaches `apply` notifies the posted resource (if mutable)
   * and then the mutable resources of the path, deepest first, stopping at
   * the first failure, which becomes the answer.
   */
  lemma PostAppliesDeepestFirst(api: Api, req: Request)
    requires Dispatched(api, req)
    requires req.httpMethod == "POST" && Target(api, req).value.postable
    requires api.postREST(Target(api, req).value).Returned?
    requires ReadRequest(req.contentType, req.decodeBody(api.postREST(Target(api, req).value).value)).None?
    ensures var ret := api.postREST(Target(api, req).value).value;
      var p := WalkFrom(api, api.root, Text.Split(req.path, '/')).path;
      var targets := Targets(if ret.mutable then Some(ret) else None, Reversed(Mutables([api.root] + p)));
      && Handling(api, req).1 <= targets
      && (ApplyAll(api, targets).0.Some? ==> Handling(api, req).0 == Failed(ApplyAll(api, targets).0.value))
      && (ApplyAll(api, targets).0.None? ==> Handling(api, req).1 == targets)
  {
    var ret := api.postREST(Target(api, req).value).value;
    var p := WalkFrom(api, api.root, Text.Split(req.path, '/')).path;
    ApplyAllStopsAtFirstFailure(api, Targets(if ret.mutable then Some(ret) else None, Reversed(Mutables([api.root] + p))));
  }
}
