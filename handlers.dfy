/**
 * The `/api/items` handlers and the catch-all handler as functions from the
 * store before a request to the store after it and the response sent.
 */
module Handlers {
  import opened Wrappers
  import opened Js
  import opened Items
  import opened Http

  const ItemNotFound := "Item not found"
  const NameRequired := "Name is required"
  const ItemDeleted := "Item deleted"
  const EndpointMissing := "Endpoint not found"

  /** The store after a request, and the response to it. */
  datatype Outcome = Outcome(store: Store, response: Response)

  /** Whether the response is a 201 carrying the created item. */
  predicate IsCreation(r: Response)
  {
    r.status == Created && r.body.Envelope? && r.body.payload.ItemData?
  }

  predicate IsDeletion(r: Response)
  {
    r == Succeed(OK, Message(ItemDeleted))
  }

  /** GET /api/items: every item in insertion order, with their number. */
  function List(s: Store): (r: Response)
    ensures r.status == OK && r.body.Envelope? && r.body.success
    ensures r.body.payload.ItemList? && r.body.payload.items == s.items
    ensures r.body.payload.count == |r.body.payload.items|
  {
    Succeed(OK, ItemList(s.items, |s.items|))
  }

  /**
   * GET /api/items/:id: the stored item whose id equals the parsed parameter,
   * or 404 when none does (an unparsable parameter matches nothing).
   */
  function Get(s: Store, idParam: string): (r: Response)
    ensures r.status == OK <==> HasMatch(s.items, ParseInt(idParam))
    ensures r.status == OK ==>
      r.body.Envelope? && r.body.success && r.body.payload.ItemData? &&
      r.body.payload.item in s.items && Matches(r.body.payload.item, ParseInt(idParam))
    ensures r.status != OK ==> r == Fail(NotFound, ItemNotFound)
  {
    var k := FindIndex(s.items, ParseInt(idParam));
    if k == -1 then Fail(NotFound, ItemNotFound) else Succeed(OK, ItemData(s.items[k]))
  }

  /**
   * POST /api/items: a falsy name is refused with 400 and nothing changes;
   * otherwise the new item takes the counter's id, is appended after every
   * existing item, and the counter advances by one.
   */
  function Create(s: Store, name: Option<string>, description: Option<string>): (o: Outcome)
    ensures Falsy(name) ==> o == Outcome(s, Fail(BadRequest, NameRequired))
    ensures !Falsy(name) ==>
      IsCreation(o.response) && o.response.body.success &&
      o.response.body.payload.item == Item(s.nextId, name.value, OrElse(description, "")) &&
      o.store.items == s.items + [o.response.body.payload.item] &&
      o.store.nextId == s.nextId + 1
    ensures Valid(s) ==> Valid(o.store)
    ensures Valid(s) && IsCreation(o.response) ==> !HasMatch(s.items, Some(o.response.body.payload.item.id))
  {
    if Falsy(name) then
      Outcome(s, Fail(BadRequest, NameRequired))
    else
      var item := Item(s.nextId, name.value, OrElse(description, ""));
      Outcome(Store(s.items + [item], s.nextId + 1), Succeed(Created, ItemData(item)))
  }

  /** The item after a patch: each supplied field replaced, every other field kept. */
  function Patch(item: Item, name: Option<string>, description: Option<string>): (r: Item)
    ensures r.id == item.id
    ensures name.None? ==> r.name == item.name
    ensures name.Some? ==> r.name == name.value
    ensures description.None? ==> r.description == item.description
    ensures description.Some? ==> r.description == description.value
  {
    Item(item.id,
         if name.Some? then name.value else item.name,
         if description.Some? then description.value else item.description)
  }

  /**
   * PUT /api/items/:id: when an item matches, exactly that item is patched in
   * place and returned; otherwise 404 and nothing changes. The counter never
   * moves, and an empty name is accepted.
   */
  function Update(s: Store, idParam: string, name: Option<string>, description: Option<string>): (o: Outcome)
    ensures o.store.nextId == s.nextId
    ensures !HasMatch(s.items, ParseInt(idParam)) ==> o == Outcome(s, Fail(NotFound, ItemNotFound))
    ensures HasMatch(s.items, ParseInt(idParam)) ==>
      exists k :: 0 <= k < |s.items| && Matches(s.items[k], ParseInt(idParam)) &&
        o.store.items == s.items[k := Patch(s.items[k], name, description)] &&
        o.response == Succeed(OK, ItemData(o.store.items[k]))
    ensures Valid(s) ==> Valid(o.store)
  {
    var k := FindIndex(s.items, ParseInt(idParam));
    if k == -1 then
      Outcome(s, Fail(NotFound, ItemNotFound))
    else
      var items := s.items[k := Patch(s.items[k], name, description)];
      assert forall j :: 0 <= j < |items| ==> items[j].id == s.items[j].id;
      Outcome(Store(items, s.nextId), Succeed(OK, ItemData(items[k])))
  }

  /**
   * DELETE /api/items/:id: when an item matches, exactly that one is removed
   * and the others keep their order; otherwise 404 and nothing changes. The
   * counter never moves, so the removed id is retired.
   */
  function Delete(s: Store, idParam: string): (o: Outcome)
    ensures o.store.nextId == s.nextId
    ensures !HasMatch(s.items, ParseInt(idParam)) ==> o == Outcome(s, Fail(NotFound, ItemNotFound))
    ensures HasMatch(s.items, ParseInt(idParam)) ==>
      IsDeletion(o.response) &&
      exists k :: 0 <= k < |s.items| && Matches(s.items[k], ParseInt(idParam)) &&
        o.store.items == s.items[..k] + s.items[k + 1..]
    ensures Valid(s) ==> Valid(o.store) && !HasMatch(o.store.items, ParseInt(idParam))
  {
    var k := FindIndex(s.items, ParseInt(idParam));
    if k == -1 then
      Outcome(s, Fail(NotFound, ItemNotFound))
    else
      var items := RemoveAt(s.items, k);
      RemoveAtKeepsValid(s, k);
      Outcome(Store(items, s.nextId), Succeed(OK, Message(ItemDeleted)))
  }

  /** Any request no route claims. */
  function EndpointNotFound(): (r: Response)
    ensures r.status == NotFound && r.body == Envelope(false, Error(EndpointMissing))
  {
    Fail(NotFound, EndpointMissing)
  }

  /** In a valid store, GET by a stored item's id returns that very item. */
  lemma GetStoredItem(s: Store, k: int, idParam: string)
    requires Valid(s)
    requires 0 <= k < |s.items|
    requires ParseInt(idParam) == Some(s.items[k].id)
    ensures Get(s, idParam) == Succeed(OK, ItemData(s.items[k]))
  {
  }

  /**
   * A created item can be fetched back under the id the 201 response gives
   * it, rendered as a client renders it, with the name and description sent.
   */
  lemma CreateThenGet(s: Store, name: string, description: Option<string>)
    requires Valid(s)
    requires name != ""
    ensures var o := Create(s, Some(name), description);
      Get(o.store, IntToString(s.nextId)) == Succeed(OK, ItemData(Item(s.nextId, name, OrElse(description, ""))))
  {
    var o := Create(s, Some(name), description);
    ParseIntOfIntToString(s.nextId, "");
    assert IntToString(s.nextId) + "" == IntToString(s.nextId);
    GetStoredItem(o.store, |s.items|, IntToString(s.nextId));
  }

  /** After a DELETE of any parameter, a GET of the same parameter is 404. */
  lemma DeleteThenGet(s: Store, idParam: string)
    requires Valid(s)
    ensures Get(Delete(s, idParam).store, idParam) == Fail(NotFound, ItemNotFound)
  {
  }

  /** Creation refuses a missing or empty name whatever the description. */
  lemma CreateWithoutName(s: Store, name: Option<string>, description: Option<string>)
    requires name.None? || name == Some("")
    ensures Create(s, name, description).store == s
    ensures Create(s, name, description).response == Fail(BadRequest, NameRequired)
  {
  }
}
