/** The cart store itself: the list of lines the UI reads, and the key-value storage the
    list is written to after every change. Each operation updates the list in place,
    line by line, and writes the whole list under the one storage key. */
module CartStore {
  import opened CartSpec

  class Cart {
    /** The in-memory list the UI renders. */
    var products: seq<Product>
    /** The device's key-value storage; the cart only ever writes `StorageKey`. */
    var storage: map<string, seq<Product>>

    /** The store's invariant: one line per id, and no negative quantity. Every
        operation keeps it; a list loaded from storage is not checked against it. */
    ghost predicate Valid()
      reads this
    {
      UniqueIds(products) && NonNegative(products)
    }

    /** A freshly mounted store: an empty list, storage as the device holds it. */
    constructor (storage: map<string, seq<Product>>)
      ensures Valid()
      ensures products == [] && this.storage == storage
    {
      products := [];
      this.storage := storage;
    }

    /** The `findIndex` pass of `addToCart`: the first position of a line with `id`,
        or -1 when there is none. */
    method FindIndex(id: string) returns (index: int)
      ensures index == IndexOf(products, id)
      ensures index == -1 <==> !HasId(products, id)
      ensures index != -1 ==>
        0 <= index < |products| && products[index].id == id &&
        forall j :: 0 <= j < index ==> products[j].id != id
    {
      index := 0;
      while index < |products| && products[index].id != id
        invariant 0 <= index <= |products|
        invariant forall j :: 0 <= j < index ==> products[j].id != id
      {
        index := index + 1;
      }
      if index == |products| {
        index := -1;
      }
    }

    /** `addToCart(item)`: one more of a line already in the cart, or a new line with
        quantity 1 at the end; in both cases the new list is written to storage. */
    method AddToCart(item: CatalogItem)
      modifies this
      ensures products == Added(old(products), item)
      ensures storage == old(storage)[StorageKey := products]
      ensures !HasId(old(products), item.id) ==>
        storage[StorageKey] == old(products) + [NewLine(item)]
      ensures old(Valid()) ==> Valid()
    {
      ghost var before := products;
      var productIndex := FindIndex(item.id);
      if productIndex != -1 {
        products := products[productIndex := products[productIndex].(quantity := products[productIndex].quantity + 1)];
        storage := storage[StorageKey := products];
      } else {
        var appended := products + [NewLine(item)];
        products := appended;
        storage := storage[StorageKey := appended];
      }
      if UniqueIds(before) { AddKeepsUnique(before, item); }
      if NonNegative(before) { AddKeepsNonNegative(before, item); }
    }

    /** `increment(id)`: every line with `id` gains one; storage is written after each
        line that changed, so it is written at all only when some line has `id`. */
    method Increment(id: string)
      modifies this
      ensures products == Incremented(old(products), id)
      ensures storage == if HasId(old(products), id) then old(storage)[StorageKey := products] else old(storage)
      ensures old(Valid()) ==> Valid()
    {
      ghost var written := false;
      var i := 0;
      while i < |products|
        invariant 0 <= i <= |products| == |old(products)|
        invariant forall k :: 0 <= k < i ==> products[k] == IncLine(old(products)[k], id)
        invariant forall k :: i <= k < |products| ==> products[k] == old(products)[k]
        invariant written <==> exists k :: 0 <= k < i && old(products)[k].id == id
        invariant storage == if written then old(storage)[StorageKey := products] else old(storage)
      {
        if products[i].id == id {
          products := products[i := products[i].(quantity := products[i].quantity + 1)];
          storage := storage[StorageKey := products];
          written := true;
        }
        i := i + 1;
      }
      IncrementKeepsInvariant(old(products), id);
    }

    /** `decrement(id)`: every line with `id` and a positive quantity loses one; storage
        is written after each line that changed, so only when such a line exists. */
    method Decrement(id: string)
      modifies this
      ensures products == Decremented(old(products), id)
      ensures storage == if HasPositive(old(products), id) then old(storage)[StorageKey := products] else old(storage)
      ensures old(Valid()) ==> Valid()
    {
      ghost var written := false;
      var i := 0;
      while i < |products|
        invariant 0 <= i <= |products| == |old(products)|
        invariant forall k :: 0 <= k < i ==> products[k] == DecLine(old(products)[k], id)
        invariant forall k :: i <= k < |products| ==> products[k] == old(products)[k]
        invariant written <==> exists k :: 0 <= k < i && old(products)[k].id == id && old(products)[k].quantity > 0
        invariant storage == if written then old(storage)[StorageKey := products] else old(storage)
      {
        if products[i].id == id && products[i].quantity > 0 {
          products := products[i := products[i].(quantity := products[i].quantity - 1)];
          storage := storage[StorageKey := products];
          written := true;
        }
        i := i + 1;
      }
      DecrementFloor(old(products), id);
      DecrementKeepsItems(old(products), id);
    }
  }

  /** An example session: add a shirt twice, increment it, then
      decrement it four times; the line stays in the cart at quantity 0. */
  method Walkthrough() {
    var cart := new Cart(map[]);
    var shirt := CatalogItem("p1", "Shirt", "u", 50.0);
    cart.AddToCart(shirt);
    assert cart.products == [Product("p1", "Shirt", "u", 50.0, 1)];
    cart.AddToCart(shirt);
    assert cart.products == [Product("p1", "Shirt", "u", 50.0, 2)];
    cart.Increment("p1");
    assert cart.products == [Product("p1", "Shirt", "u", 50.0, 3)];
    cart.Decrement("p1");
    cart.Decrement("p1");
    assert cart.products == [Product("p1", "Shirt", "u", 50.0, 1)];
    cart.Decrement("p1");
    cart.Decrement("p1");
    assert cart.products == [Product("p1", "Shirt", "u", 50.0, 0)];
    assert cart.storage[StorageKey] == cart.products;
    assert cart.Valid();
  }
}
