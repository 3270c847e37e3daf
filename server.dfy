/**
 * The backend process itself: one store object whose two fields the item
 * handlers update in place, step by step, and the dispatcher that sends each
 * request to its handler. Every handler is proved to do exactly what the
 * corresponding function of `Handlers` or `Router` says.
 */
module Server {
  import opened Wrappers
  import opened Js
  import opened Items
  import opened Http
  import Handlers
  import Status
  import Router

  class ItemStore {
    /** The stored items, in insertion order. */
    var items: seq<Item>
    /** The id the next created item receives. */
    var nextId: int

    function State(): Store
      reads this
    {
      Store(items, nextId)
    }

    ghost predicate Valid()
      reads this
    {
      Items.Valid(State())
    }

    /** The store as the process starts, holding the two sample items. */
    constructor ()
      ensures Valid() && State() == Seed()
    {
      items := Seed().items;
      nextId := Seed().nextId;
    }

    /** `items.findIndex(i => i.id === id)`, as a left-to-right scan. */
    method IndexOf(id: Option<int>) returns (k: int)
      ensures k == FindIndex(items, id)
    {
      k := 0;
      while k < |items|
        invariant 0 <= k <= |items|
        invariant forall j :: 0 <= j < k ==> !Matches(items[j], id)
      {
        if Matches(items[k], id) {
          return;
        }
        k := k + 1;
      }
      k := -1;
    }

    /** GET /api/items. */
    method List() returns (r: Response)
      ensures r == Handlers.List(State())
    {
      r := Handlers.List(State());
    }

    /** GET /api/items/:id. */
    method Get(idParam: string) returns (r: Response)
      ensures r == Handlers.Get(State(), idParam)
    {
      var k := IndexOf(ParseInt(idParam));
      if k == -1 {
        r := Fail(NotFound, Handlers.ItemNotFound);
      } else {
        r := Succeed(OK, ItemData(items[k]));
      }
    }

    /** POST /api/items: issue `nextId`, advance the counter, push the new item. */
    method Create(name: Option<string>, description: Option<string>) returns (r: Response)
      requires Valid()
      modifies this
      ensures Valid()
      ensures Handlers.Outcome(State(), r) == Handlers.Create(old(State()), name, description)
    {
      if Falsy(name) {
        r := Fail(BadRequest, Handlers.NameRequired);
        return;
      }
      var item := Item(nextId, name.value, OrElse(description, ""));
      nextId := nextId + 1;
      items := items + [item];
      r := Succeed(Created, ItemData(item));
    }

    /** PUT /api/items/:id: assign the supplied fields of the matching item. */
    method Update(idParam: string, name: Option<string>, description: Option<string>) returns (r: Response)
      requires Valid()
      modifies this
      ensures Valid()
      ensures Handlers.Outcome(State(), r) == Handlers.Update(old(State()), idParam, name, description)
    {
      var k := IndexOf(ParseInt(idParam));
      if k == -1 {
        r := Fail(NotFound, Handlers.ItemNotFound);
        return;
      }
      if name.Some? {
        items := items[k := items[k].(name := name.value)];
      }
      if description.Some? {
        items := items[k := items[k].(description := description.value)];
      }
      r := Succeed(OK, ItemData(items[k]));
    }

    /** DELETE /api/items/:id: splice the matching item out. */
    method Delete(idParam: string) returns (r: Response)
      requires Valid()
      modifies this
      ensures Valid()
      ensures Handlers.Outcome(State(), r) == Handlers.Delete(old(State()), idParam)
    {
      var k := IndexOf(ParseInt(idParam));
      if k == -1 {
        r := Fail(NotFound, Handlers.ItemNotFound);
        return;
      }
      items := items[..k] + items[k + 1..];
      r := Succeed(OK, Message(Handlers.ItemDeleted));
    }

    /**
     * Serve one request: route it and run its handler, or answer the
     * catch-all 404. The new state and the response are those of one
     * `Router.Step`, so the counter never decreases and the invariant holds.
     */
    method Handle(req: Router.Request, ctx: Router.Context) returns (r: Response)
      requires Valid()
      modifies this
      ensures Valid()
      ensures nextId >= old(nextId)
      ensures Handlers.Outcome(State(), r) == Router.Step(old(State()), Router.Match(req), ctx)
    {
      var route := Router.Match(req);
      match route
      case HealthCheck => r := Status.Health(ctx.now, ctx.uptime);
      case ReadyCheck => r := Status.Ready(ctx.now);
      case VersionInfo => r := Status.Version(ctx.env, ctx.now);
      case ListItems => r := List();
      case GetItem(p) => r := Get(p);
      case CreateItem(n, d) => r := Create(n, d);
      case UpdateItem(p, n, d) => r := Update(p, n, d);
      case DeleteItem(p) => r := Delete(p);
      case Unmatched => r := Handlers.EndpointNotFound();
    }
  }

  /** The store after the suite's two creates (the second one is refused). */
  const AfterCreates := Store(Seed().items + [Item(3, "Test Item", "Test description")], 4)

  /** The store after the suite's update of item 1. */
  const AfterUpdate := Store([Item(1, "Updated Name", "Updated description"), Seed().items[1],
                              Item(3, "Test Item", "Test description")], 4)

  /**
   * The backend test suite's requests, in the order it sends them to one
   * fresh process: the three reporters, list, create, a nameless create,
   * read item 1, read a missing id, update item 1, create an item and delete
   * it, read it again, and a request to an unknown endpoint.
   */
  method TestSuiteSession(ctx: Router.Context) returns (rs: seq<Response>)
    ensures |rs| == 13
    ensures rs[0].status == OK && rs[0].body.HealthReport? && rs[0].body.state == "healthy"
    ensures rs[1].status == OK && rs[1].body.ReadyReport? && rs[1].body.state == "ready"
    ensures rs[2].status == OK && rs[2].body.VersionReport?
    ensures rs[3] == Succeed(OK, ItemList(Seed().items, 2))
    ensures rs[4] == Succeed(Created, ItemData(Item(3, "Test Item", "Test description")))
    ensures rs[5] == Fail(BadRequest, Handlers.NameRequired)
    ensures rs[6] == Succeed(OK, ItemData(Seed().items[0]))
    ensures rs[7] == Fail(NotFound, Handlers.ItemNotFound)
    ensures rs[8] == Succeed(OK, ItemData(Item(1, "Updated Name", "Updated description")))
    ensures rs[9] == Succeed(Created, ItemData(Item(4, "To Delete", "")))
    ensures rs[10] == Succeed(OK, Message(Handlers.ItemDeleted))
    ensures rs[11] == Fail(NotFound, Handlers.ItemNotFound)
    ensures rs[12] == Fail(NotFound, Handlers.EndpointMissing)
  {
    var store := new ItemStore();
    var health, ready, version, listed := SuiteReports(store, ctx);
    var created, nameless := SuiteCreates(store, ctx);
    var fetched, missing, updated := SuiteReadAndUpdate(store, ctx);
    var toDelete, deleted, refetched, unknown := SuiteDelete(store, ctx);
    rs := [health, ready, version, listed, created, nameless, fetched, missing,
           updated, toDelete, deleted, refetched, unknown];
  }

  /** GET /health, /ready, /version and /api/items on the seed store. */
  method SuiteReports(store: ItemStore, ctx: Router.Context)
    returns (health: Response, ready: Response, version: Response, listed: Response)
    requires store.Valid() && store.State() == Seed()
    modifies store
    ensures store.Valid() && store.State() == Seed()
    ensures health.status == OK && health.body.HealthReport? && health.body.state == "healthy"
    ensures ready.status == OK && ready.body.ReadyReport? && ready.body.state == "ready"
    ensures version.status == OK && version.body.VersionReport?
    ensures listed == Succeed(OK, ItemList(Seed().items, 2))
  {
    health := store.Handle(Router.Request(Router.Get, ["health"], None, None), ctx);
    ready := store.Handle(Router.Request(Router.Get, ["ready"], None, None), ctx);
    version := store.Handle(Router.Request(Router.Get, ["version"], None, None), ctx);
    listed := store.Handle(Router.Request(Router.Get, ["api", "items"], None, None), ctx);
  }

  /** POST /api/items with a name, then without one. */
  method SuiteCreates(store: ItemStore, ctx: Router.Context) returns (created: Response, nameless: Response)
    requires store.Valid() && store.State() == Seed()
    modifies store
    ensures store.Valid() && store.State() == AfterCreates
    ensures created == Succeed(Created, ItemData(Item(3, "Test Item", "Test description")))
    ensures nameless == Fail(BadRequest, Handlers.NameRequired)
  {
    created := store.Handle(Router.Request(Router.Post, ["api", "items"], Some("Test Item"), Some("Test description")), ctx);
    nameless := store.Handle(Router.Request(Router.Post, ["api", "items"], None, Some("No name")), ctx);
  }

  /** GET item 1, GET a missing id, then PUT both fields of item 1. */
  method SuiteReadAndUpdate(store: ItemStore, ctx: Router.Context)
    returns (fetched: Response, missing: Response, updated: Response)
    requires store.Valid() && store.State() == AfterCreates
    modifies store
    ensures store.Valid() && store.State() == AfterUpdate
    ensures fetched == Succeed(OK, ItemData(Seed().items[0]))
    ensures missing == Fail(NotFound, Handlers.ItemNotFound)
    ensures updated == Succeed(OK, ItemData(Item(1, "Updated Name", "Updated description")))
  {
    ParseIntRoundTrip(1);
    FindIndexOfStoredId(store.items, 0);
    fetched := store.Handle(Router.Request(Router.Get, ["api", "items", IntToString(1)], None, None), ctx);
    ParseIntRoundTrip(9999);
    missing := store.Handle(Router.Request(Router.Get, ["api", "items", IntToString(9999)], None, None), ctx);
    updated := store.Handle(Router.Request(Router.Put, ["api", "items", IntToString(1)],
                                           Some("Updated Name"), Some("Updated description")), ctx);
  }

  /** POST "To Delete", DELETE it by the id it got, GET it again, then an unknown endpoint. */
  method SuiteDelete(store: ItemStore, ctx: Router.Context)
    returns (toDelete: Response, deleted: Response, refetched: Response, unknown: Response)
    requires store.Valid() && store.State() == AfterUpdate
    modifies store
    ensures toDelete == Succeed(Created, ItemData(Item(4, "To Delete", "")))
    ensures deleted == Succeed(OK, Message(Handlers.ItemDeleted))
    ensures refetched == Fail(NotFound, Handlers.ItemNotFound)
    ensures unknown == Fail(NotFound, Handlers.EndpointMissing)
  {
    toDelete := store.Handle(Router.Request(Router.Post, ["api", "items"], Some("To Delete"), None), ctx);
    assert store.items == AfterUpdate.items + [Item(4, "To Delete", "")];
    ParseIntRoundTrip(4);
    FindIndexOfStoredId(store.items, 3);
    deleted := store.Handle(Router.Request(Router.Delete, ["api", "items", IntToString(4)], None, None), ctx);
    refetched := store.Handle(Router.Request(Router.Get, ["api", "items", IntToString(4)], None, None), ctx);
    unknown := store.Handle(Router.Request(Router.Get, ["unknown-endpoint"], None, None), ctx);
  }
}
