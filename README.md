# Cart store model

A Dafny model of the shopping-cart store of a React Native storefront
(`src/hooks/cart.tsx`). The store keeps an ordered list of cart lines
(`Product`: `id`, `title`, `image_url`, `price`, `quantity`). It exposes three
operations that change the list in place:

- `addToCart` looks the item up by id. It adds one to the first line with that id,
  or it appends the item with quantity 1.
- `increment(id)` walks the list and adds one to every line with the id.
- `decrement(id)` walks the list and takes one from every line with the id whose
  quantity is positive. A line is never removed.

After each change the whole list is written under the single key
`@GoMarketplace:products`.

Two modules:

- `CartSpec` (`cart_spec.dfy`) holds the values: `Product`, and `CatalogItem`, the
  product-without-quantity that `addToCart` receives. The source's `image_url` field
  is named `imageUrl` here. It defines the three operations
  as functions on the list (`Added`, `Incremented`, `Decremented`), `IndexOf` for
  `findIndex`, and the lemmas about them.
- `CartStore` (`cart_store.dfy`) holds the store as a class `Cart`. Its field
  `products` is the in-memory list. Its field `storage` is the device's key-value
  storage. The methods walk the list with loops, as the source's `findIndex` and
  `forEach` passes do. Each method's postcondition ties the new list to the matching
  function of the old list, and says exactly when and what was written to storage.
  `Walkthrough` runs an example session: add a shirt twice, increment it, then
  decrement it four times; the line stays in the cart at quantity 0.
- `Cart.Valid()` is the store's invariant: ids are unique and no quantity is negative.
  The constructor establishes it and each operation keeps it.

Modelling choices:

- `quantity` is an unbounded `int`. The source's `number` is never constrained. A
  list loaded from storage may hold any integer, including a negative one. So "never
  negative" is proved as an invariant that each operation keeps, not assumed by a
  type. Non-integer numbers are outside the model (see "Left out").
- `price` is carried as a `real` and never computed with, as in the source.
- Storage holds the list itself rather than its JSON text.
- Storage is written exactly where the source calls `setItem`:
  - `addToCart` always writes.
  - `increment` writes only when some line has the id.
  - `decrement` writes only when some line has the id and a positive quantity.
  - Otherwise storage is left untouched.
  - In the `forEach` passes, each changed line triggers a write of the list as it
    stands at that point. The last write therefore holds the final list.
- In the append branch, the source hands the state setter a functional update of the
  latest list, but writes the list it captured at render time plus the new line to
  storage. Each operation here acts atomically on the current list, so the two
  agree. `Cart.AddToCart` states the written value both ways.
- The round trip `addToCart` then `decrement` restores the original list only when
  the existing line's quantity is non-negative. `RoundTripExisting` requires that.
  `RoundTripNeedsNonNegative` shows a loaded quantity of -1 coming back as 0.

## Model

| member | source | states |
|---|---|---|
| `CartSpec.IndexOf` | src/hooks/cart.tsx:48 | the result is -1 exactly when no line has the id, and otherwise the first position whose line has the id |
| `CartStore.Cart.FindIndex` | src/hooks/cart.tsx:48 | the loop finds the first line with the id, or -1 when none has it, and agrees with `IndexOf` |
| `CartSpec.Incremented` | src/hooks/cart.tsx:70-73 | the list keeps its length, and each line becomes itself with one more unit when its id matches, unchanged otherwise |
| `CartSpec.Decremented` | src/hooks/cart.tsx:86-89 | the list keeps its length, and each line loses one unit when its id matches and its quantity is positive, unchanged otherwise |
| `CartSpec.Added` | src/hooks/cart.tsx:48-58 | when the item's id is present, the first line with it gains exactly 1 and keeps its other fields, and every other line and the length are unchanged; when it is absent, one line with the item's id, title, image, price and quantity 1 is appended at the end and the earlier lines are untouched |
| `CartSpec.AddedAll` | src/hooks/cart.tsx:46-66 | a run of adds never removes or reorders a line, never changes a line's non-quantity fields, never lowers a quantity, and appends at most one line per item |
| `CartSpec.AddExistingIsIncrement` | src/hooks/cart.tsx:48-52 | with unique ids, adding a present item gives the same list as `increment` of its id |
| `CartSpec.AddKeepsUnique` | src/hooks/cart.tsx:48-62 | ids unique before an add are unique after it, and the added id is present |
| `CartSpec.AddAllKeepsUnique` | src/hooks/cart.tsx:46-66 | after any run of adds, ids are still unique and every added id is present |
| `CartSpec.AddAllKeepsIds` | src/hooks/cart.tsx:46-66 | an id present before a run of adds is present after it: adding never removes a line |
| `CartSpec.AddKeepsNonNegative` | src/hooks/cart.tsx:50-58 | adding never makes a quantity negative |
| `CartSpec.IncrementMissIsNoop` | src/hooks/cart.tsx:70-71 | `increment` of an id no line has leaves the list unchanged by value |
| `CartSpec.IncrementShape` | src/hooks/cart.tsx:70-73 | `increment` keeps the sequence of ids and every non-quantity field; each matching line gains exactly 1, every other line keeps its quantity |
| `CartSpec.IncrementKeepsInvariant` | src/hooks/cart.tsx:70-73 | `increment` keeps ids unique and quantities non-negative |
| `CartSpec.DecrementFloor` | src/hooks/cart.tsx:86-89 | a non-negative quantity stays non-negative, a quantity at or below zero is unchanged, a positive matching quantity loses exactly 1, a non-matching line is unchanged; a non-negative list stays non-negative |
| `CartSpec.DecrementNoPositiveIsNoop` | src/hooks/cart.tsx:86-87 | `decrement` of an id with no positive-quantity line (including an absent id) leaves the list unchanged by value |
| `CartSpec.DecrementKeepsItems` | src/hooks/cart.tsx:86-95 | `decrement` removes no line: the length, the sequence of ids and every non-quantity field are unchanged, so unique ids stay unique |
| `CartSpec.RoundTripExisting` | src/hooks/cart.tsx:48-88 | with unique ids and a non-negative quantity on the present line, add then decrement of the same id gives back the original list |
| `CartSpec.RoundTripNew` | src/hooks/cart.tsx:57-88 | add of an absent item then decrement of its id leaves the earlier lines as they were and the item last with quantity 0 |
| `CartSpec.RoundTripNeedsNonNegative` | src/hooks/cart.tsx:48-88 | a line with quantity -1 comes back from add then decrement as quantity 0, so the round trip needs a non-negative quantity |
| `CartStore.Cart.constructor` | src/hooks/cart.tsx:30 | the store starts with an empty list, which satisfies the invariant, and leaves storage as it was |
| `CartStore.Cart.AddToCart` | src/hooks/cart.tsx:46-66 | the new list is `Added` of the old one; the list is written under the storage key and no other key changes; in the append branch the written value is the old list plus the new line; the invariant is kept |
| `CartStore.Cart.Increment` | src/hooks/cart.tsx:68-82 | the new list is `Incremented` of the old one; the storage key then holds the new list when some line matched, and storage is untouched when none did; the invariant is kept |
| `CartStore.Cart.Decrement` | src/hooks/cart.tsx:84-98 | the new list is `Decremented` of the old one; the storage key then holds the new list when some matching line had a positive quantity, and storage is untouched otherwise; the invariant is kept |

## Left out

- Loading the cart from storage on mount (the `useEffect` at src/hooks/cart.tsx:32-44) is not modelled. This includes its `JSON.parse` of an empty string when nothing is stored, which throws. The store starts empty, as `useState([])` does.
- JSON serialisation and the asynchronous `AsyncStorage` calls are not modelled. Storage is a map that holds the list itself, and a write takes effect at once. Failed or reordered writes are not modelled.
- React plumbing is not modelled: the context, `useCallback`, `useMemo` and the provider. This includes the stale-closure behaviour, where each callback works on the list captured at its last render. Each operation here acts atomically on the current list.
- The `useCart` guard that throws outside a provider is not modelled. It is a check on a framework lookup.
- Aliasing between the captured list and the copy passed to `setProducts` is not modelled. The source mutates shared line objects, so an earlier snapshot also sees the change. Here lines are values and the list is one field.
- `quantity` is an integer, not a floating-point number. Lost with it: non-integer values read back from storage, and float precision. For example, a loaded quantity of 0.5 passes the `> 0` guard of `decrement` and becomes -0.5, so the zero floor fails for such values. A NaN quantity is never decremented. Above 2^53, `+= 1` no longer changes the value. `DecrementFloor`, `RoundTripExisting` and `Cart.Valid` hold for integer quantities only.
- `price` is a `real`, not a floating-point number. It is never computed with.
