/**
 * The backend's in-memory item store as a value: the ordered `items`
 * collection and the `nextId` counter, the invariant that makes ids unique,
 * and the searches and removal the handlers perform on the collection.
 */
module Items {
  import opened Wrappers

  /** One stored record; `id` is assigned by the store and never by a client. */
  datatype Item = Item(id: int, name: string, description: string)

  /** The store's whole state: items in insertion order and the next id to issue. */
  datatype Store = Store(items: seq<Item>, nextId: int)

  /**
   * `i.id === id` for a parsed path parameter: a parameter that did not parse
   * (NaN) is equal to no id.
   */
  predicate Matches(item: Item, id: Option<int>)
  {
    id.Some? && item.id == id.value
  }

  predicate HasMatch(items: seq<Item>, id: Option<int>)
  {
    exists i :: 0 <= i < |items| && Matches(items[i], id)
  }

  predicate IdsDistinct(items: seq<Item>)
  {
    forall i, j :: 0 <= i < j < |items| ==> items[i].id != items[j].id
  }

  predicate IdsBelow(items: seq<Item>, bound: int)
  {
    forall i :: 0 <= i < |items| ==> items[i].id < bound
  }

  /**
   * The store invariant: no two items share an id, and every stored id was
   * issued before, so lies below the counter.
   */
  predicate Valid(s: Store)
  {
    IdsDistinct(s.items) && IdsBelow(s.items, s.nextId)
  }

  /** The store as the process starts: two sample items and the counter at 3. */
  function Seed(): (s: Store)
    ensures Valid(s)
    ensures |s.items| == 2 && s.items[0].id == 1 && s.items[1].id == 2 && s.nextId == 3
  {
    Store([Item(1, "Sample Item 1", "This is a sample item"),
           Item(2, "Sample Item 2", "Another sample item")],
          3)
  }

  /**
   * `items.findIndex(i => i.id === id)`: the first matching position, or -1
   * when nothing matches.
   */
  function FindIndex(items: seq<Item>, id: Option<int>): (k: int)
    ensures -1 <= k < |items|
    ensures k == -1 <==> !HasMatch(items, id)
    ensures k >= 0 ==> Matches(items[k], id)
    ensures k >= 0 ==> forall j :: 0 <= j < k ==> !Matches(items[j], id)
  {
    if items == [] then -1
    else if Matches(items[0], id) then 0
    else
      var k := FindIndex(items[1..], id);
      assert forall j :: 1 <= j < |items| ==> items[j] == items[1..][j - 1];
      if k == -1 then -1 else k + 1
  }

  /** In a store with distinct ids, the search finds the one item holding the id. */
  lemma FindIndexOfStoredId(items: seq<Item>, k: int)
    requires IdsDistinct(items)
    requires 0 <= k < |items|
    ensures FindIndex(items, Some(items[k].id)) == k
  {
  }

  /** `items.splice(k, 1)`: the collection without position `k`, order kept. */
  function RemoveAt(items: seq<Item>, k: nat): (r: seq<Item>)
    requires k < |items|
    ensures |r| == |items| - 1
    ensures forall j :: 0 <= j < k ==> r[j] == items[j]
    ensures forall j :: k <= j < |r| ==> r[j] == items[j + 1]
  {
    items[..k] + items[k + 1..]
  }

  /**
   * Removing one item keeps ids distinct and below the counter, and, because
   * ids were distinct, leaves no item holding the removed id.
   */
  lemma RemoveAtKeepsValid(s: Store, k: nat)
    requires k < |s.items|
    ensures Valid(s) ==> Valid(Store(RemoveAt(s.items, k), s.nextId))
    ensures Valid(s) ==> !HasMatch(RemoveAt(s.items, k), Some(s.items[k].id))
  {
  }
}
