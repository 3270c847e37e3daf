/**
 * Route matching and dispatch: which handler a request reaches, one request
 * as a step from store to store, and a run of requests processed one after
 * another, with the properties that hold over whole runs.
 */
module Router {
  import opened Wrappers
  import opened Items
  import opened Http
  import opened Handlers
  import Status

  datatype Verb = Get | Post | Put | Delete | Other

  /** A request: its verb, its path split at '/', and the two JSON body fields. */
  datatype Request = Request(
    verb: Verb,
    path: seq<string>,
    name: Option<string>,
    description: Option<string>)

  datatype Route =
    | HealthCheck
    | ReadyCheck
    | VersionInfo
    | ListItems
    | GetItem(idParam: string)
    | CreateItem(name: Option<string>, description: Option<string>)
    | UpdateItem(idParam: string, name: Option<string>, description: Option<string>)
    | DeleteItem(idParam: string)
    | Unmatched

  /** What a request sees of the world beyond the store: clock, uptime, environment. */
  datatype Context = Context(now: string, uptime: real, env: Status.Env)

  /** `/api/items/:id`, where the parameter is one non-empty path segment. */
  predicate IsItemPath(path: seq<string>)
  {
    |path| == 3 && path[0] == "api" && path[1] == "items" && path[2] != ""
  }

  /** A verb and path pair that one of the registered handlers claims. */
  predicate Registered(req: Request)
  {
    (req.verb == Get &&
      (req.path == ["health"] || req.path == ["ready"] || req.path == ["version"] ||
       req.path == ["api", "items"] || IsItemPath(req.path))) ||
    (req.verb == Post && req.path == ["api", "items"]) ||
    ((req.verb == Put || req.verb == Delete) && IsItemPath(req.path))
  }

  /** The registered routes; a request none of them claims falls to the catch-all. */
  function Match(req: Request): (r: Route)
    ensures req.verb == Get && req.path == ["health"] ==> r == HealthCheck
    ensures req.verb == Get && req.path == ["ready"] ==> r == ReadyCheck
    ensures req.verb == Get && req.path == ["version"] ==> r == VersionInfo
    ensures req.verb == Get && req.path == ["api", "items"] ==> r == ListItems
    ensures req.verb == Get && IsItemPath(req.path) ==> r == GetItem(req.path[2])
    ensures req.verb == Post && req.path == ["api", "items"] ==> r == CreateItem(req.name, req.description)
    ensures req.verb == Put && IsItemPath(req.path) ==> r == UpdateItem(req.path[2], req.name, req.description)
    ensures req.verb == Delete && IsItemPath(req.path) ==> r == DeleteItem(req.path[2])
    ensures r.Unmatched? <==> !Registered(req)
  {
    match req.verb
    case Get =>
      if req.path == ["health"] then HealthCheck
      else if req.path == ["ready"] then ReadyCheck
      else if req.path == ["version"] then VersionInfo
      else if req.path == ["api", "items"] then ListItems
      else if IsItemPath(req.path) then GetItem(req.path[2])
      else Unmatched
    case Post =>
      if req.path == ["api", "items"] then CreateItem(req.name, req.description) else Unmatched
    case Put =>
      if IsItemPath(req.path) then UpdateItem(req.path[2], req.name, req.description) else Unmatched
    case Delete =>
      if IsItemPath(req.path) then DeleteItem(req.path[2]) else Unmatched
    case Other => Unmatched
  }

  /** Outside the five reporter and item paths every request is unmatched. */
  lemma UnknownPathUnmatched(req: Request)
    requires req.path != ["health"] && req.path != ["ready"] && req.path != ["version"]
    requires req.path != ["api", "items"] && !IsItemPath(req.path)
    ensures Match(req) == Unmatched
  {
  }

  /**
   * One request handled to completion. Only create, update and delete touch
   * the store; the counter moves exactly on a 201; the size changes by one
   * exactly on a 201 or a deletion; every envelope's `success` agrees with
   * its status.
   */
  function Step(s: Store, route: Route, ctx: Context): (o: Outcome)
    ensures Valid(s) ==> Valid(o.store)
    ensures !(route.CreateItem? || route.UpdateItem? || route.DeleteItem?) ==> o.store == s
    ensures route.Unmatched? ==> o.response == Fail(NotFound, EndpointMissing)
    ensures SignalsAgree(o.response)
    ensures o.store.nextId == if IsCreation(o.response) then s.nextId + 1 else s.nextId
    ensures IsCreation(o.response) ==> o.response.body.payload.item.id == s.nextId
    ensures |o.store.items| ==
      if IsCreation(o.response) then |s.items| + 1
      else if IsDeletion(o.response) then |s.items| - 1
      else |s.items|
  {
    match route
    case HealthCheck => Outcome(s, Status.Health(ctx.now, ctx.uptime))
    case ReadyCheck => Outcome(s, Status.Ready(ctx.now))
    case VersionInfo => Outcome(s, Status.Version(ctx.env, ctx.now))
    case ListItems => Outcome(s, List(s))
    case GetItem(p) => Outcome(s, Handlers.Get(s, p))
    case CreateItem(n, d) => Create(s, n, d)
    case UpdateItem(p, n, d) => Update(s, p, n, d)
    case DeleteItem(p) => Handlers.Delete(s, p)
    case Unmatched => Outcome(s, EndpointNotFound())
  }

  /** A request together with the clock and environment it was served under. */
  datatype Call = Call(req: Request, ctx: Context)

  /** The final store and the responses, in order, of a run of requests. */
  datatype Trace = Trace(store: Store, responses: seq<Response>)

  function Run(s: Store, calls: seq<Call>): (t: Trace)
    ensures |t.responses| == |calls|
    decreases |calls|
  {
    if calls == [] then Trace(s, [])
    else
      var o := Step(s, Match(calls[0].req), calls[0].ctx);
      var t := Run(o.store, calls[1..]);
      Trace(t.store, [o.response] + t.responses)
  }

  /** The ids handed out by the 201 responses of a run, in order. */
  function CreatedIds(rs: seq<Response>): (ids: seq<int>)
    ensures |ids| <= |rs|
  {
    if rs == [] then []
    else if IsCreation(rs[0]) then [rs[0].body.payload.item.id] + CreatedIds(rs[1..])
    else CreatedIds(rs[1..])
  }

  function CountCreations(rs: seq<Response>): nat
  {
    if rs == [] then 0 else (if IsCreation(rs[0]) then 1 else 0) + CountCreations(rs[1..])
  }

  function CountDeletions(rs: seq<Response>): nat
  {
    if rs == [] then 0 else (if IsDeletion(rs[0]) then 1 else 0) + CountDeletions(rs[1..])
  }

  predicate StrictlyIncreasing(xs: seq<int>)
  {
    forall i, j :: 0 <= i < j < |xs| ==> xs[i] < xs[j]
  }

  /** The store invariant holds after any run from a valid store, and the counter never goes back. */
  lemma {:induction false} RunKeepsValid(s: Store, calls: seq<Call>)
    requires Valid(s)
    ensures Valid(Run(s, calls).store)
    ensures Run(s, calls).store.nextId >= s.nextId
    decreases |calls|
  {
    if calls != [] {
      var o := Step(s, Match(calls[0].req), calls[0].ctx);
      RunKeepsValid(o.store, calls[1..]);
    }
  }

  /**
   * Ids are never reused: the ids a run hands out strictly increase, all are
   * at least the counter at the start (so above every id issued before, held
   * or deleted), and all are below the counter at the end.
   */
  lemma {:induction false} CreatedIdsFresh(s: Store, calls: seq<Call>)
    ensures var t := Run(s, calls);
      StrictlyIncreasing(CreatedIds(t.responses)) &&
      forall i :: 0 <= i < |CreatedIds(t.responses)| ==>
        s.nextId <= CreatedIds(t.responses)[i] < t.store.nextId
    ensures Run(s, calls).store.nextId >= s.nextId
    decreases |calls|
  {
    if calls != [] {
      var o := Step(s, Match(calls[0].req), calls[0].ctx);
      var rest := Run(o.store, calls[1..]);
      CreatedIdsFresh(o.store, calls[1..]);
      var t := Run(s, calls);
      assert t.responses == [o.response] + rest.responses;
      assert t.responses[1..] == rest.responses;
    }
  }

  /** In a valid store, no id a later run hands out equals the id of any item held now. */
  lemma NoStoredIdReissued(s: Store, calls: seq<Call>, k: int, i: int)
    requires Valid(s)
    requires 0 <= k < |s.items|
    requires 0 <= i < |CreatedIds(Run(s, calls).responses)|
    ensures CreatedIds(Run(s, calls).responses)[i] > s.items[k].id
  {
    CreatedIdsFresh(s, calls);
  }

  /** After a run, the store holds its old items plus one per 201 minus one per deletion. */
  lemma {:induction false} RunItemCount(s: Store, calls: seq<Call>)
    ensures var t := Run(s, calls);
      |t.store.items| == |s.items| + CountCreations(t.responses) - CountDeletions(t.responses)
    decreases |calls|
  {
    if calls != [] {
      var o := Step(s, Match(calls[0].req), calls[0].ctx);
      var rest := Run(o.store, calls[1..]);
      RunItemCount(o.store, calls[1..]);
      var t := Run(s, calls);
      assert t.responses[1..] == rest.responses;
    }
  }

  /** Requests that reach no route never change the store. */
  lemma {:induction false} UnmatchedRunLeavesStore(s: Store, calls: seq<Call>)
    requires forall i :: 0 <= i < |calls| ==> Match(calls[i].req) == Unmatched
    ensures Run(s, calls).store == s
    ensures forall i :: 0 <= i < |calls| ==> Run(s, calls).responses[i] == Fail(NotFound, EndpointMissing)
    decreases |calls|
  {
    if calls != [] {
      UnmatchedRunLeavesStore(s, calls[1..]);
      var t := Run(s, calls);
      forall i | 1 <= i < |calls|
        ensures t.responses[i] == Fail(NotFound, EndpointMissing)
      {
        assert calls[1..][i - 1] == calls[i];
      }
    }
  }
}
